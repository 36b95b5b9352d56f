/**
 * Batched resolution: every item of a batch is resolved on its own, failures
 * become error entries at the item's own position, the remaining items go to
 * the executor in one call, and its results are spliced back by position.
 */
module Multiplex {
  import opened PersistedQueries
  import opened StoreAdapters
  import opened Resolvers
  import StringResolver
  import DocumentResolver

  /** One object of a response's `errors` list. */
  datatype ErrorObject = Message(message: string) | ParseErrorHash(details: map<string, string>)

  /** One entry of the batch's results: an error response, or what the executor answered. */
  datatype Entry<R> = Errors(errors: seq<ErrorObject>) | Executed(result: R)

  /** `resolver.new(query_params, extensions, schema).resolve` for the configured class. */
  function Resolution<D>(cls: ResolverClass<D>, params: QueryParams<D>, ext: Extensions, schema: Schema<D>,
                         storage: map<string, string>): (r: Run<D>)
    // only a class other than the two strategies can raise a parse error
    ensures r.outcome.ParseError? ==> cls.CustomResolverClass?
    // the two strategies leave an item's extensions as they found them
    ensures !cls.CustomResolverClass? && r.outcome.Resolved? ==> r.outcome.params.extensions == params.extensions
    ensures cls.CustomResolverClass? ==> r.storage == storage && r.handled == []
    ensures |r.handled| <= 1
  {
    match cls
    case StringResolverClass => StringResolver.Resolution(params, ext, schema, storage)
    case DocumentResolverClass => DocumentResolver.Resolution(params, ext, schema, storage)
    case CustomResolverClass(resolve) => Run(resolve(params, ext), storage, [])
  }

  method ResolveWith<D>(cls: ResolverClass<D>, store: MemoryStoreAdapter, params: QueryParams<D>, ext: Extensions,
                        schema: Schema<D>)
    returns (outcome: Outcome<D>, handled: seq<Failure>)
    modifies store
    ensures Run(outcome, store.storage, handled) == Resolution(cls, params, ext, schema, old(store.storage))
  {
    match cls
    case StringResolverClass =>
      outcome, handled := StringResolver.Resolve(store, params, ext, schema);
    case DocumentResolverClass =>
      outcome, handled := DocumentResolver.Resolve(store, params, ext, schema);
    case CustomResolverClass(resolve) =>
      outcome, handled := resolve(params, ext), [];
  }

  /** The result of `resolve_persisted_query` on one item: the item, its result slot, the store, the handler's calls. */
  datatype StepRun<D, R> = StepRun(item: QueryParams<D>, slot: Option<Entry<R>>, storage: map<string, string>, handled: seq<Failure>)

  /** `resolve_persisted_query`: consume the item's extensions, resolve it, and record a failure in its slot. */
  function Step<D, R>(cls: ResolverClass<D>, schema: Schema<D>, item: QueryParams<D>, slot: Option<Entry<R>>,
                      storage: map<string, string>): (s: StepRun<D, R>)
    // an item without extensions is not resolved at all
    ensures item.extensions.None? ==> s == StepRun(item, slot, storage, [])
    // the two strategies leave no item with extensions, whether it resolved or not
    ensures !cls.CustomResolverClass? ==> s.item.extensions.None?
    // a slot only ever receives an error entry, and only for an item that carried extensions
    ensures s.slot != slot ==> item.extensions.Some? && s.slot.Some? && s.slot.value.Errors?
    ensures item.extensions.Some? ==>
      var run := Resolution(cls, item.(extensions := None), item.extensions.value, schema, storage);
      s.storage == run.storage && s.handled == run.handled &&
      (run.outcome.Resolved? ==> s.item == run.outcome.params && s.slot == slot) &&
      (!run.outcome.Resolved? ==> s.item == item.(extensions := None)) &&
      (run.outcome.NotFound? ==> s.slot == Some(Errors([Message(NotFoundMessage)]))) &&
      (run.outcome.WrongHash? ==> s.slot == Some(Errors([Message(WrongHashMessage)]))) &&
      (run.outcome.ParseError? ==> s.slot == Some(Errors([ParseErrorHash(run.outcome.details)])))
    ensures |s.handled| <= 1
  {
    match item.extensions
    case None => StepRun(item, slot, storage, [])
    case Some(ext) =>
      var stripped := item.(extensions := None);
      var run := Resolution(cls, stripped, ext, schema, storage);
      match run.outcome
      case Resolved(resolved) => StepRun(resolved, slot, run.storage, run.handled)
      case NotFound => StepRun(stripped, Some(Errors([Message(NotFoundMessage)])), run.storage, run.handled)
      case WrongHash => StepRun(stripped, Some(Errors([Message(WrongHashMessage)])), run.storage, run.handled)
      case ParseError(details) => StepRun(stripped, Some(Errors([ParseErrorHash(details)])), run.storage, run.handled)
  }

  /** The items, result slots, store and handler calls of a batch being resolved. */
  datatype Phase<D, R> = Phase(items: seq<QueryParams<D>>, slots: seq<Option<Entry<R>>>, storage: map<string, string>, handled: seq<Failure>)

  /**
   * What resolution did at one position: an item without extensions is
   * untouched and keeps its slot; with the two strategies the item no longer
   * has extensions; only an item resolved by another class can still carry
   * extensions, which its resolver handed back; a slot that changed holds an
   * error entry for an item that carried extensions.
   */
  ghost predicate Settled<D, R>(cls: ResolverClass<D>, before: QueryParams<D>, after: QueryParams<D>,
                                slotBefore: Option<Entry<R>>, slotAfter: Option<Entry<R>>) {
    (before.extensions.None? ==> after == before && slotAfter == slotBefore) &&
    (!cls.CustomResolverClass? ==> after.extensions.None?) &&
    (before.extensions.Some? && after.extensions.Some? ==> cls.CustomResolverClass? && slotAfter == slotBefore) &&
    (slotAfter != slotBefore ==> before.extensions.Some? && slotAfter.Some? && slotAfter.value.Errors?)
  }

  /** `resolve_persisted_query` on the item at `pos`, within the batch. */
  function Advance<D, R>(cls: ResolverClass<D>, schema: Schema<D>, p: Phase<D, R>, pos: nat): (q: Phase<D, R>)
    requires |p.slots| == |p.items| && pos < |p.items|
    ensures |q.items| == |p.items| && |q.slots| == |p.items|
    // only the item at `pos` and its own slot change
    ensures forall k :: 0 <= k < |p.items| && k != pos ==> q.items[k] == p.items[k] && q.slots[k] == p.slots[k]
    ensures Settled(cls, p.items[pos], q.items[pos], p.slots[pos], q.slots[pos])
    // the handler's earlier calls stay, and at most one is added
    ensures p.handled <= q.handled && |q.handled| <= |p.handled| + 1
  {
    var s := Step(cls, schema, p.items[pos], p.slots[pos], p.storage);
    Phase(p.items[pos := s.item], p.slots[pos := s.slot], s.storage, p.handled + s.handled)
  }

  /** `resolve_persisted_queries` stopped after the first `n` items of the batch `start`. */
  function ResolvedUpTo<D, R>(cls: ResolverClass<D>, schema: Schema<D>, start: Phase<D, R>, n: nat): (p: Phase<D, R>)
    requires |start.slots| == |start.items| && n <= |start.items|
    ensures |p.items| == |start.items| && |p.slots| == |start.items|
    // the items not reached yet are untouched
    ensures forall k :: n <= k < |start.items| ==> p.items[k] == start.items[k] && p.slots[k] == start.slots[k]
    // at most one handler call per item, after those made before the batch
    ensures start.handled <= p.handled && |p.handled| <= |start.handled| + n
    decreases n
  {
    if n == 0 then start else Advance(cls, schema, ResolvedUpTo(cls, schema, start, n - 1), n - 1)
  }

  /** After resolving the first `n` items, each of them is settled at its own position. */
  lemma {:induction false} ResolvedItems<D, R>(cls: ResolverClass<D>, schema: Schema<D>, start: Phase<D, R>, n: nat)
    requires |start.slots| == |start.items| && n <= |start.items|
    ensures var p := ResolvedUpTo(cls, schema, start, n);
      forall k :: 0 <= k < n ==> Settled(cls, start.items[k], p.items[k], start.slots[k], p.slots[k])
  {
    if n > 0 {
      ResolvedItems(cls, schema, start, n - 1);
      var prev := ResolvedUpTo(cls, schema, start, n - 1);
      var p := ResolvedUpTo(cls, schema, start, n);
      assert p == Advance(cls, schema, prev, n - 1);
      forall k | 0 <= k < n
        ensures Settled(cls, start.items[k], p.items[k], start.slots[k], p.slots[k])
      {
        if k < n - 1 {
          assert p.items[k] == prev.items[k] && p.slots[k] == prev.slots[k];
        } else {
          assert prev.items[k] == start.items[k] && prev.slots[k] == start.slots[k];
        }
      }
    }
  }

  /** A position is final once its own step has run: later items never touch its item or its slot. */
  lemma {:induction false} ResolvedAt<D, R>(cls: ResolverClass<D>, schema: Schema<D>, start: Phase<D, R>, n: nat, k: nat)
    requires |start.slots| == |start.items| && k < n <= |start.items|
    ensures ResolvedUpTo(cls, schema, start, n).items[k] == ResolvedUpTo(cls, schema, start, k + 1).items[k]
    ensures ResolvedUpTo(cls, schema, start, n).slots[k] == ResolvedUpTo(cls, schema, start, k + 1).slots[k]
  {
    if n - 1 > k {
      ResolvedAt(cls, schema, start, n - 1, k);
      var prev := ResolvedUpTo(cls, schema, start, n - 1);
      assert ResolvedUpTo(cls, schema, start, n) == Advance(cls, schema, prev, n - 1);
    }
  }

  /**
   * The partition of a batch: an item whose slot starts empty ends with an
   * error entry exactly when it carried extensions and its resolution raised,
   * and that entry is the error of its own resolution; every other item keeps
   * an empty slot, and so goes to the executor.
   */
  lemma PartitionAt<D, R>(cls: ResolverClass<D>, schema: Schema<D>, start: Phase<D, R>, n: nat, k: nat)
    requires |start.slots| == |start.items| && k < n <= |start.items|
    requires start.slots[k].None?
    ensures var p := ResolvedUpTo(cls, schema, start, n);
      var item := start.items[k];
      var storage := ResolvedUpTo(cls, schema, start, k).storage;
      p.slots[k].Some? <==>
        item.extensions.Some? &&
        !Resolution(cls, item.(extensions := None), item.extensions.value, schema, storage).outcome.Resolved?
    ensures var p := ResolvedUpTo(cls, schema, start, n);
      var item := start.items[k];
      var storage := ResolvedUpTo(cls, schema, start, k).storage;
      (item.extensions.None? ==> p.items[k] == item) &&
      (item.extensions.Some? ==>
        var run := Resolution(cls, item.(extensions := None), item.extensions.value, schema, storage);
        (run.outcome.Resolved? ==> p.items[k] == run.outcome.params) &&
        (run.outcome.NotFound? ==> p.slots[k] == Some(Errors([Message(NotFoundMessage)]))) &&
        (run.outcome.WrongHash? ==> p.slots[k] == Some(Errors([Message(WrongHashMessage)]))) &&
        (run.outcome.ParseError? ==> p.slots[k] == Some(Errors([ParseErrorHash(run.outcome.details)]))))
  {
    ResolvedAt(cls, schema, start, n, k);
    var prev := ResolvedUpTo(cls, schema, start, k);
    assert prev.items[k] == start.items[k] && prev.slots[k] == start.slots[k];
  }

  /** The store invariant each strategy keeps: every cached entry was verified against its hash. */
  ghost predicate Trusted<D>(cls: ResolverClass<D>, schema: Schema<D>, storage: map<string, string>) {
    match cls
    case StringResolverClass => StringResolver.Verified(storage, schema.hashGenerator)
    case DocumentResolverClass => DocumentResolver.Verified(schema, storage)
    case CustomResolverClass(_) => true
  }

  lemma StepKeepsTrusted<D, R>(cls: ResolverClass<D>, schema: Schema<D>, item: QueryParams<D>, slot: Option<Entry<R>>,
                               storage: map<string, string>)
    requires Trusted(cls, schema, storage)
    ensures Trusted(cls, schema, Step(cls, schema, item, slot, storage).storage)
  {
    if item.extensions.Some? {
      var stripped := item.(extensions := None);
      match cls
      case StringResolverClass =>
        StringResolver.ResolutionKeepsVerified(stripped, item.extensions.value, schema, storage);
      case DocumentResolverClass =>
        DocumentResolver.ResolutionKeepsVerified(stripped, item.extensions.value, schema, storage);
      case CustomResolverClass(_) =>
    }
  }

  /** However many items are bogus, resolving a whole batch never caches content under a hash it does not match. */
  lemma {:induction false} BatchKeepsTrusted<D, R>(cls: ResolverClass<D>, schema: Schema<D>, start: Phase<D, R>, n: nat)
    requires |start.slots| == |start.items| && n <= |start.items|
    requires Trusted(cls, schema, start.storage)
    ensures Trusted(cls, schema, ResolvedUpTo(cls, schema, start, n).storage)
  {
    if n > 0 {
      BatchKeepsTrusted(cls, schema, start, n - 1);
      var prev := ResolvedUpTo(cls, schema, start, n - 1);
      StepKeepsTrusted(cls, schema, prev.items[n - 1], prev.slots[n - 1], prev.storage);
    }
  }

  /** The positions at or after `from` whose slot is still empty, in increasing order. */
  function PendingFrom<E>(slots: seq<Option<E>>, from: nat): (idx: seq<nat>)
    requires from <= |slots|
    ensures forall j :: 0 <= j < |idx| ==> from <= idx[j] < |slots| && slots[idx[j]].None?
    ensures forall i, j :: 0 <= i < j < |idx| ==> idx[i] < idx[j]
    ensures forall k :: from <= k < |slots| && slots[k].None? ==> k in idx
    decreases |slots| - from
  {
    if from == |slots| then []
    else if slots[from].None? then [from] + PendingFrom(slots, from + 1)
    else PendingFrom(slots, from + 1)
  }

  /** `(0...count).select { |i| results[i].nil? }`. */
  function Pending<E>(slots: seq<Option<E>>): (idx: seq<nat>)
    ensures forall j :: 0 <= j < |idx| ==> idx[j] < |slots| && slots[idx[j]].None?
    ensures forall i, j :: 0 <= i < j < |idx| ==> idx[i] < idx[j]
    ensures forall k :: 0 <= k < |slots| && slots[k].None? ==> k in idx
  {
    PendingFrom(slots, 0)
  }

  /** `resolve_idx.map { |i| @queries.at(i) }`: the items at the given positions, in that order. */
  function Batch<D>(items: seq<QueryParams<D>>, idx: seq<nat>): (batch: seq<QueryParams<D>>)
    requires forall j :: 0 <= j < |idx| ==> idx[j] < |items|
    ensures |batch| == |idx|
    ensures forall j :: 0 <= j < |idx| ==> batch[j] == items[idx[j]]
  {
    seq(|idx|, j requires 0 <= j < |idx| => items[idx[j]])
  }

  /** `multiplex_result[j]`, which is nil past the end of the executor's answer. */
  function ResultAt<R>(answers: seq<R>, j: nat): (entry: Option<Entry<R>>)
    ensures entry.Some? <==> j < |answers|
    ensures entry.Some? ==> entry.value.Executed? && entry.value.result == answers[j]
  {
    if j < |answers| then Some(Executed(answers[j])) else None
  }

  /** The slots after writing the executor's first `n` answers to the first `n` pending positions. */
  function SpliceN<R>(slots: seq<Option<Entry<R>>>, idx: seq<nat>, answers: seq<R>, n: nat): (r: seq<Option<Entry<R>>>)
    requires n <= |idx|
    requires forall j :: 0 <= j < |idx| ==> idx[j] < |slots|
    ensures |r| == |slots|
    decreases n
  {
    if n == 0 then slots
    else SpliceN(slots, idx, answers, n - 1)[idx[n - 1] := ResultAt(answers, n - 1)]
  }

  /** With distinct positions, the `j`-th answer lands at the `j`-th position and every other slot is kept. */
  lemma {:induction false} SpliceNAt<R>(slots: seq<Option<Entry<R>>>, idx: seq<nat>, answers: seq<R>, n: nat)
    requires n <= |idx|
    requires forall j :: 0 <= j < |idx| ==> idx[j] < |slots|
    requires forall i, j :: 0 <= i < j < |idx| ==> idx[i] < idx[j]
    ensures forall j :: 0 <= j < n ==> SpliceN(slots, idx, answers, n)[idx[j]] == ResultAt(answers, j)
    ensures forall p :: 0 <= p < |slots| && p !in idx[..n] ==> SpliceN(slots, idx, answers, n)[p] == slots[p]
  {
    if n > 0 {
      SpliceNAt(slots, idx, answers, n - 1);
      assert forall p :: p in idx[..n - 1] ==> p in idx[..n];
      assert idx[n - 1] !in idx[..n - 1];
    }
  }

  /**
   * Reassembly: with one answer per pending position, the results keep one
   * entry per input position, every error entry stays where it was, the
   * `j`-th answer lands at the `j`-th pending position, and no slot is left empty.
   */
  lemma Reassembly<R>(slots: seq<Option<Entry<R>>>, answers: seq<R>)
    requires |answers| == |Pending(slots)|
    ensures var idx := Pending(slots);
      var r := SpliceN(slots, idx, answers, |idx|);
      |r| == |slots| &&
      (forall p :: 0 <= p < |slots| && slots[p].Some? ==> r[p] == slots[p]) &&
      (forall j :: 0 <= j < |idx| ==> r[idx[j]] == Some(Executed(answers[j]))) &&
      (forall p :: 0 <= p < |slots| ==> r[p].Some?)
  {
    var idx := Pending(slots);
    var r := SpliceN(slots, idx, answers, |idx|);
    SpliceNAt(slots, idx, answers, |idx|);
    assert idx[..|idx|] == idx;
    forall p | 0 <= p < |slots|
      ensures r[p].Some? && (slots[p].Some? ==> r[p] == slots[p])
    {
      if slots[p].None? {
        assert p in idx;
        var j :| 0 <= j < |idx| && idx[j] == p;
        assert r[p] == ResultAt(answers, j);
      } else {
        assert p !in idx;
      }
    }
  }

  /** The interleaved batch: positions 0 and 2 failed, 1 and 3 go to the executor and get its answers in order. */
  lemma InterleavedBatch<R>(e0: Entry<R>, e2: Entry<R>, a: R, b: R)
    ensures Pending([Some(e0), None, Some(e2), None]) == [1, 3]
    ensures SpliceN([Some(e0), None, Some(e2), None], [1, 3], [a, b], 2) ==
      [Some(e0), Some(Executed(a)), Some(e2), Some(Executed(b))]
  {
    var slots := [Some(e0), None, Some(e2), None];
    assert PendingFrom(slots, 3) == [3];
    assert PendingFrom(slots, 2) == [3];
    assert PendingFrom(slots, 1) == [1, 3];
  }

  /** The state `MultiplexResolver` keeps for one batch. */
  class MultiplexResolver<D, R> {
    const schema: Schema<D>
    /** `schema.persisted_query_resolver_class`. */
    const resolverClass: ResolverClass<D>
    const store: MemoryStoreAdapter
    const queries: array<QueryParams<D>>
    /** `schema.multiplex_original` with the batch's keyword arguments. */
    const execute: seq<QueryParams<D>> -> seq<R>
    /** The memoised `results` array: one slot per query, all nil at first. */
    const results: array<Option<Entry<R>>>
    /** Every batch handed to the executor, in call order. */
    ghost var batches: seq<seq<QueryParams<D>>>
    /** Every backend exception handed to the error handler, in order. */
    ghost var handled: seq<Failure>

    ghost predicate Valid()
      reads this
    {
      results.Length == queries.Length
    }

    constructor (schema: Schema<D>, resolverClass: ResolverClass<D>, store: MemoryStoreAdapter,
                 queries: array<QueryParams<D>>, execute: seq<QueryParams<D>> -> seq<R>)
      ensures Valid() && fresh(results)
      ensures this.schema == schema && this.resolverClass == resolverClass && this.store == store
      ensures this.queries == queries && this.execute == execute
      ensures forall i :: 0 <= i < results.Length ==> results[i].None?
      ensures batches == [] && handled == []
    {
      this.schema := schema;
      this.resolverClass := resolverClass;
      this.store := store;
      this.queries := queries;
      this.execute := execute;
      results := new Option<Entry<R>>[queries.Length](_ => None);
      batches := [];
      handled := [];
    }

    /** The batch as the resolution functions see it: items, result slots, store and handler calls. */
    ghost function Snapshot(): Phase<D, R>
      reads this, queries, results, store
    {
      Phase(queries[..], results[..], store.storage, handled)
    }

    /** `resolve`: resolve every item, run the executor once on the rest, and answer one entry per item. */
    method Resolve() returns (r: array<Option<Entry<R>>>)
      requires Valid()
      modifies this, queries, results, store
      ensures Valid() && r == results && r.Length == queries.Length
      ensures var p := ResolvedUpTo(resolverClass, schema, old(Snapshot()), queries.Length);
        var idx := Pending(p.slots);
        queries[..] == p.items && store.storage == p.storage && handled == p.handled &&
        batches == old(batches) + [Batch(p.items, idx)] &&
        results[..] == SpliceN(p.slots, idx, execute(Batch(p.items, idx)), |idx|)
    {
      ResolvePersistedQueries();
      PerformMultiplex();
      r := results;
    }

    /** `resolve_persisted_queries`: each item in turn; one item's failure does not stop the next. */
    method ResolvePersistedQueries()
      requires Valid()
      modifies this, queries, results, store
      ensures Valid()
      ensures Snapshot() == ResolvedUpTo(resolverClass, schema, old(Snapshot()), queries.Length)
      ensures batches == old(batches)
    {
      ghost var start := Snapshot();
      var i := 0;
      while i < queries.Length
        invariant 0 <= i <= queries.Length
        invariant Snapshot() == ResolvedUpTo(resolverClass, schema, start, i)
        invariant batches == old(batches)
      {
        ResolvePersistedQuery(i);
        i := i + 1;
      }
    }

    /** `resolve_persisted_query` on the item at `pos`. */
    method ResolvePersistedQuery(pos: nat)
      requires Valid() && pos < queries.Length
      modifies this, queries, results, store
      ensures Valid()
      ensures Snapshot() == Advance(resolverClass, schema, old(Snapshot()), pos)
      ensures batches == old(batches)
    {
      var extensions := queries[pos].extensions;
      queries[pos] := queries[pos].(extensions := None);
      if extensions.None? {
        return;
      }
      var outcome, failures := ResolveWith(resolverClass, store, queries[pos], extensions.value, schema);
      handled := handled + failures;
      match outcome
      case Resolved(resolved) =>
        queries[pos] := resolved;
      case NotFound =>
        results[pos] := Some(Errors([Message(NotFoundMessage)]));
      case WrongHash =>
        results[pos] := Some(Errors([Message(WrongHashMessage)]));
      case ParseError(details) =>
        results[pos] := Some(Errors([ParseErrorHash(details)]));
    }

    /** `perform_multiplex`: one executor call on the unresolved items, answers written back by position. */
    method PerformMultiplex()
      requires Valid()
      modifies this, results
      ensures Valid()
      ensures var idx := Pending(old(results[..]));
        batches == old(batches) + [Batch(queries[..], idx)] && handled == old(handled) &&
        results[..] == SpliceN(old(results[..]), idx, execute(Batch(queries[..], idx)), |idx|)
    {
      var idx := Pending(results[..]);
      var batch := Batch(queries[..], idx);
      var answers := execute(batch);
      batches := batches + [batch];
      var j := 0;
      while j < |idx|
        invariant 0 <= j <= |idx|
        invariant results[..] == SpliceN(old(results[..]), idx, answers, j)
        invariant batches == old(batches) + [batch] && handled == old(handled)
      {
        results[idx[j]] := ResultAt(answers, j);
        j := j + 1;
      }
    }
  }
}
