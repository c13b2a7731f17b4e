/**
 * `CloudTableRepository`: CRUD, filtered paged queries and size-limited
 * batches over one table, built on entity proxies and the abstract store.
 */
module Repository {
  import opened Outcomes
  import opened TableStore
  import opened EntityProxy
  import Extensions

  /** `TableServiceBatchMaximumOperations`: the store rejects larger batches. */
  const TableServiceBatchMaximumOperations: nat := 100

  /** The name of the partition-key column in filters. */
  const PartitionKeyProperty := "PartitionKey"

  // ---------------------------------------------------------------------
  // Batch-size policy

  /**
   * `IsBatchCountUnderSupportedOperationsLimit`: at most 100 operations,
   * which is exactly when chunking would not split the batch.
   */
  predicate IsBatchCountUnderSupportedOperationsLimit(batch: seq<TableOperation>): (under: bool)
    ensures under <==> |GetLimitedBatchOperationLists(batch)| <= 1
  {
    Extensions.ChunkByCount(batch, TableServiceBatchMaximumOperations);
    |batch| <= TableServiceBatchMaximumOperations
  }

  /** `GetLimitedBatchOperationLists`: the batch cut into lists of at most 100 operations, in order. */
  function GetLimitedBatchOperationLists(batch: seq<TableOperation>): (lists: seq<seq<TableOperation>>)
    ensures forall k :: 0 <= k < |lists| ==> 0 < |lists[k]| <= TableServiceBatchMaximumOperations
    ensures Extensions.Flatten(lists) == batch
  {
    Extensions.ChunkByFlattens(batch, TableServiceBatchMaximumOperations);
    Extensions.ChunkBy(batch, TableServiceBatchMaximumOperations)
  }

  /** The batches `ExecuteBatchAsLimitedBatchesAsync` submits for `batch`, in submission order. */
  function Submissions(batch: seq<TableOperation>): (submissions: seq<seq<TableOperation>>)
    ensures |submissions| == 1 <==> |batch| <= TableServiceBatchMaximumOperations
    ensures |batch| > TableServiceBatchMaximumOperations ==> forall k :: 0 <= k < |submissions| ==> 0 < |submissions[k]|
  {
    if IsBatchCountUnderSupportedOperationsLimit(batch) then [batch]
    else GetLimitedBatchOperationLists(batch)
  }

  /** A batch within the limit goes out as one submission, unchanged. */
  lemma SingleSubmissionWithinLimit(batch: seq<TableOperation>)
    requires |batch| <= TableServiceBatchMaximumOperations
    ensures Submissions(batch) == [batch]
  {
  }

  /**
   * Every submission respects the store's limit, and the submissions,
   * concatenated, are the original batch in its original order.
   */
  lemma SubmissionsPartitionBatch(batch: seq<TableOperation>)
    ensures forall k :: 0 <= k < |Submissions(batch)| ==> |Submissions(batch)[k]| <= TableServiceBatchMaximumOperations
    ensures Extensions.Flatten(Submissions(batch)) == batch
  {
    if IsBatchCountUnderSupportedOperationsLimit(batch) {
      assert Extensions.Flatten([batch]) == batch + Extensions.Flatten([]);
    } else {
      Extensions.ChunkByFlattens(batch, TableServiceBatchMaximumOperations);
    }
  }

  /** Over the limit: ceil(n / 100) non-empty submissions, all full but the last. */
  lemma ChunkedSubmissionsOverLimit(batch: seq<TableOperation>)
    requires |batch| > TableServiceBatchMaximumOperations
    ensures |Submissions(batch)| == (|batch| + TableServiceBatchMaximumOperations - 1) / TableServiceBatchMaximumOperations
    ensures forall k :: 0 <= k < |Submissions(batch)| ==> 0 < |Submissions(batch)[k]|
    ensures forall k :: 0 <= k < |Submissions(batch)| - 1 ==>
      |Submissions(batch)[k]| == TableServiceBatchMaximumOperations
  {
    Extensions.ChunkByCount(batch, TableServiceBatchMaximumOperations);
  }

  /** Over the limit, operation i goes out in submission i / 100, at position i % 100. */
  lemma OperationPlacement(batch: seq<TableOperation>, i: nat)
    requires |batch| > TableServiceBatchMaximumOperations && i < |batch|
    ensures i / TableServiceBatchMaximumOperations < |Submissions(batch)|
    ensures i % TableServiceBatchMaximumOperations < |Submissions(batch)[i / TableServiceBatchMaximumOperations]|
    ensures Submissions(batch)[i / TableServiceBatchMaximumOperations][i % TableServiceBatchMaximumOperations] == batch[i]
  {
    Extensions.ChunkByGroupsByIndex(batch, TableServiceBatchMaximumOperations, i);
  }

  /** 250 operations go out as three submissions of 100, 100 and 50. */
  lemma TwoHundredFiftyOperations(batch: seq<TableOperation>)
    requires |batch| == 250
    ensures |Submissions(batch)| == 3
    ensures Submissions(batch) == [batch[..100], batch[100..200], batch[200..]]
  {
    var s := Submissions(batch);
    assert s == [batch[..100]] + Extensions.ChunkBy(batch[100..], 100);
    assert Extensions.ChunkBy(batch[100..], 100) == [batch[100..][..100]] + Extensions.ChunkBy(batch[100..][100..], 100);
    assert batch[100..][..100] == batch[100..200];
    assert batch[100..][100..] == batch[200..];
  }

  /** One `ExecuteBatch` request per submission, in order. */
  function BatchRequests(submissions: seq<seq<TableOperation>>): (r: seq<Request>)
    ensures |r| == |submissions|
    ensures forall k :: 0 <= k < |r| ==> r[k] == ExecuteBatch(submissions[k])
  {
    seq(|submissions|, k requires 0 <= k < |submissions| => ExecuteBatch(submissions[k]))
  }

  /** The results of the submissions, concatenated in submission order. */
  function Responses(respond: seq<TableOperation> -> seq<TableResult>, submissions: seq<seq<TableOperation>>): seq<TableResult>
  {
    if submissions == [] then []
    else Responses(respond, submissions[..|submissions| - 1]) + respond(submissions[|submissions| - 1])
  }

  /** The results are the per-submission results, concatenated. */
  lemma {:induction false} ResponsesConcatenate(respond: seq<TableOperation> -> seq<TableResult>, submissions: seq<seq<TableOperation>>)
    ensures Responses(respond, submissions)
      == Extensions.Flatten(seq(|submissions|, k requires 0 <= k < |submissions| => respond(submissions[k])))
    decreases |submissions|
  {
    var parts := seq(|submissions|, k requires 0 <= k < |submissions| => respond(submissions[k]));
    if submissions != [] {
      var n := |submissions| - 1;
      var init := submissions[..n];
      var initParts := seq(|init|, k requires 0 <= k < |init| => respond(init[k]));
      ResponsesConcatenate(respond, init);
      assert parts == initParts + [respond(submissions[n])];
      Extensions.FlattenAppend(initParts, [respond(submissions[n])]);
      assert Extensions.Flatten([respond(submissions[n])]) == respond(submissions[n]) + Extensions.Flatten([]);
    }
  }

  /** Submitting one more chunk extends the requests and the results by that chunk's share. */
  lemma SubmissionStep(respond: seq<TableOperation> -> seq<TableResult>, submissions: seq<seq<TableOperation>>, k: nat)
    requires k < |submissions|
    ensures BatchRequests(submissions[..k + 1]) == BatchRequests(submissions[..k]) + [ExecuteBatch(submissions[k])]
    ensures Responses(respond, submissions[..k + 1]) == Responses(respond, submissions[..k]) + respond(submissions[k])
  {
    assert submissions[..k + 1][..k] == submissions[..k];
  }

  /** A store answering each submission with one result per operation yields one result per operation overall. */
  lemma {:induction false} ResponsesLength(respond: seq<TableOperation> -> seq<TableResult>, submissions: seq<seq<TableOperation>>)
    requires forall k :: 0 <= k < |submissions| ==> |respond(submissions[k])| == |submissions[k]|
    ensures |Responses(respond, submissions)| == |Extensions.Flatten(submissions)|
    decreases |submissions|
  {
    if submissions != [] {
      var n := |submissions| - 1;
      ResponsesLength(respond, submissions[..n]);
      assert submissions == submissions[..n] + [submissions[n]];
      Extensions.FlattenAppend(submissions[..n], [submissions[n]]);
      assert Extensions.Flatten([submissions[n]]) == submissions[n] + Extensions.Flatten([]);
    }
  }

  /**
   * Whatever the chunking, a batch whose every submission is answered with
   * one result per operation gets exactly one result per operation back.
   */
  lemma OneResultPerOperation(respond: seq<TableOperation> -> seq<TableResult>, batch: seq<TableOperation>)
    requires forall b :: |respond(b)| == |b|
    ensures |Responses(respond, Submissions(batch))| == |batch|
  {
    SubmissionsPartitionBatch(batch);
    ResponsesLength(respond, Submissions(batch));
  }

  /** `CreateLimitedTableBatchOperation`: a new batch holding the chunk's operations, in order. */
  method CreateLimitedTableBatchOperation(limitedBatchOperationList: seq<TableOperation>) returns (limitedBatch: seq<TableOperation>)
    ensures limitedBatch == limitedBatchOperationList
  {
    limitedBatch := [];
    for i := 0 to |limitedBatchOperationList|
      invariant limitedBatch == limitedBatchOperationList[..i]
    {
      limitedBatch := limitedBatch + [limitedBatchOperationList[i]];
    }
  }

  // ---------------------------------------------------------------------
  // Batches built from entities

  /** The operation kinds the three range writes put in their batches. */
  datatype BatchKind = InsertKind | ReplaceKind | InsertOrReplaceKind

  function BatchOperation(kind: BatchKind, row: ProxyRow): TableOperation
  {
    match kind
    case InsertKind => Insert(row)
    case ReplaceKind => Replace(row)
    case InsertOrReplaceKind => InsertOrReplace(row)
  }

  predicate AllPresent(entities: seq<Option<Entity>>)
  {
    forall i :: 0 <= i < |entities| ==> entities[i].Some?
  }

  /** One operation per entity, in order, each on the row of a proxy built from that entity. */
  function BatchOperations(scheme: ProxyScheme, entities: seq<Option<Entity>>, kind: BatchKind): (ops: seq<TableOperation>)
    requires AllPresent(entities)
    ensures |ops| == |entities|
    ensures forall i :: 0 <= i < |ops| ==> ops[i] == BatchOperation(kind, EntityRow(scheme, entities[i].value))
  {
    seq(|entities|, i requires 0 <= i < |entities| => BatchOperation(kind, EntityRow(scheme, entities[i].value)))
  }

  /**
   * The `foreach` that builds a proxy per entity and adds its operation to
   * the batch; a null entity makes the proxy constructor throw.
   */
  method BuildBatchOperations(scheme: ProxyScheme, entities: seq<Option<Entity>>, kind: BatchKind)
    returns (r: Result<seq<TableOperation>>)
    ensures r.Success? <==> AllPresent(entities)
    ensures r.Failure? ==> r.error == ArgumentNull("value")
    ensures r.Success? ==> |r.value| == |entities|
    ensures r.Success? ==> r.value == BatchOperations(scheme, entities, kind)
  {
    var batch: seq<TableOperation> := [];
    for i := 0 to |entities|
      invariant AllPresent(entities[..i])
      invariant |batch| == i
      invariant forall j :: 0 <= j < i ==> batch[j] == BatchOperation(kind, EntityRow(scheme, entities[j].value))
    {
      var built := NewFromEntity(scheme, entities[i]);
      if built.Failure? {
        assert !AllPresent(entities);
        return Failure(built.error);
      }
      var proxy := built.value;
      batch := batch + [BatchOperation(kind, proxy.Row())];
      assert entities[..i + 1] == entities[..i] + [entities[i]];
    }
    assert entities[..|entities|] == entities;
    assert batch == BatchOperations(scheme, entities, kind);
    r := Success(batch);
  }

  /**
   * The `foreach` of the range writes: one freshly built proxy per result,
   * giving one entity per result, in the same order.
   */
  method EntitiesFromTableResults(scheme: ProxyScheme, results: seq<TableResult>) returns (entities: seq<Option<Entity>>)
    ensures |entities| == |results|
    ensures forall i :: 0 <= i < |results| ==> entities[i] == FreshProxyEntity(scheme, results[i])
  {
    entities := [];
    for i := 0 to |results|
      invariant |entities| == i
      invariant forall j :: 0 <= j < i ==> entities[j] == FreshProxyEntity(scheme, results[j])
    {
      var proxy := new TableEntityProxy.Empty(scheme);
      var e := proxy.GetEntityFromTableResult(results[i]);
      entities := entities + [e];
    }
  }

  // ---------------------------------------------------------------------
  // Filters

  /** One equality clause per property, in enumeration order. */
  function EqualityClauses(properties: seq<(string, string)>): (r: seq<Filter>)
    ensures |r| == |properties|
    ensures forall i :: 0 <= i < |r| ==> r[i] == Eq(properties[i].0, properties[i].1)
  {
    seq(|properties|, i requires 0 <= i < |properties| => Eq(properties[i].0, properties[i].1))
  }

  /** `filter` ANDed, from the left, with one equality clause per property. */
  function ConjoinProperties(filter: Filter, properties: seq<(string, string)>): Filter
    decreases |properties|
  {
    if properties == [] then filter
    else ConjoinProperties(And(filter, Eq(properties[0].0, properties[0].1)), properties[1..])
  }

  /** The equality clauses of a filter, left to right. */
  function Clauses(f: Filter): seq<Filter>
  {
    match f
    case Eq(_, _) => [f]
    case And(l, r) => Clauses(l) + Clauses(r)
  }

  /** Whether a row (its properties, keys included) satisfies a filter. */
  predicate Holds(f: Filter, row: map<string, string>)
  {
    match f
    case Eq(p, v) => p in row && row[p] == v
    case And(l, r) => Holds(l, row) && Holds(r, row)
  }

  lemma {:induction false} ConjoinPropertiesClauses(filter: Filter, properties: seq<(string, string)>)
    ensures Clauses(ConjoinProperties(filter, properties)) == Clauses(filter) + EqualityClauses(properties)
    decreases |properties|
  {
    if properties != [] {
      var head := Eq(properties[0].0, properties[0].1);
      ConjoinPropertiesClauses(And(filter, head), properties[1..]);
      assert EqualityClauses(properties) == [head] + EqualityClauses(properties[1..]);
    }
  }

  lemma {:induction false} ConjoinPropertiesHolds(filter: Filter, properties: seq<(string, string)>, row: map<string, string>)
    ensures Holds(ConjoinProperties(filter, properties), row) <==>
      Holds(filter, row) && forall i :: 0 <= i < |properties| ==> Holds(Eq(properties[i].0, properties[i].1), row)
    decreases |properties|
  {
    if properties != [] {
      var head := Eq(properties[0].0, properties[0].1);
      ConjoinPropertiesHolds(And(filter, head), properties[1..], row);
      var tail := properties[1..];
      assert (forall i :: 0 <= i < |properties| ==> Holds(Eq(properties[i].0, properties[i].1), row)) <==>
        Holds(head, row) && forall i :: 0 <= i < |tail| ==> Holds(Eq(tail[i].0, tail[i].1), row)
      by {
        forall i | 0 <= i < |tail| ensures tail[i] == properties[i + 1] {}
        if Holds(head, row) && forall i :: 0 <= i < |tail| ==> Holds(Eq(tail[i].0, tail[i].1), row) {
          forall i | 0 <= i < |properties| ensures Holds(Eq(properties[i].0, properties[i].1), row) {
            if i > 0 { assert properties[i] == tail[i - 1]; }
          }
        }
      }
    }
  }

  /**
   * The filter of `GetByPropertiesAsync`: the partition-key clause, then one
   * AND per property, in enumeration order.
   */
  method BuildPropertiesFilter(partitionKey: string, properties: seq<(string, string)>) returns (filter: Filter)
    ensures filter == ConjoinProperties(Eq(PartitionKeyProperty, partitionKey), properties)
    ensures Clauses(filter) == [Eq(PartitionKeyProperty, partitionKey)] + EqualityClauses(properties)
    ensures properties == [] ==> filter == Eq(PartitionKeyProperty, partitionKey)
  {
    filter := Eq(PartitionKeyProperty, partitionKey);
    for i := 0 to |properties|
      invariant ConjoinProperties(filter, properties[i..]) == ConjoinProperties(Eq(PartitionKeyProperty, partitionKey), properties)
    {
      assert properties[i..][1..] == properties[i + 1..];
      filter := And(filter, Eq(properties[i].0, properties[i].1));
    }
    assert properties[|properties|..] == [];
    ConjoinPropertiesClauses(Eq(PartitionKeyProperty, partitionKey), properties);
  }

  /**
   * A row matches the filter of `GetByPropertiesAsync` exactly when its
   * partition key and every listed property have the given values.
   */
  lemma PropertiesFilterMatches(partitionKey: string, properties: seq<(string, string)>, row: map<string, string>)
    ensures Holds(ConjoinProperties(Eq(PartitionKeyProperty, partitionKey), properties), row) <==>
      && PartitionKeyProperty in row && row[PartitionKeyProperty] == partitionKey
      && forall i :: 0 <= i < |properties| ==> properties[i].0 in row && row[properties[i].0] == properties[i].1
  {
    ConjoinPropertiesHolds(Eq(PartitionKeyProperty, partitionKey), properties, row);
  }

  // ---------------------------------------------------------------------
  // Paged queries

  /** The segments one query fetches: up to and including the first with a null token. */
  function PagesOfOneQuery(segments: seq<Segment>): (pages: seq<Segment>)
    requires QueryEnds(segments)
    ensures 0 < |pages| <= |segments| && pages == segments[..|pages|]
    ensures pages[|pages| - 1].continuation.None?
    ensures forall i :: 0 <= i < |pages| - 1 ==> pages[i].continuation.Some?
  {
    if segments[0].continuation.None? then [segments[0]]
    else [segments[0]] + PagesOfOneQuery(segments[1..])
  }

  /** K segments whose tokens are all set but the K-th: the query fetches exactly those K. */
  lemma {:induction false} QueryFetchesKPages(segments: seq<Segment>, k: nat)
    requires 0 < k <= |segments|
    requires forall i :: 0 <= i < k - 1 ==> segments[i].continuation.Some?
    requires segments[k - 1].continuation.None?
    ensures QueryEnds(segments) && PagesOfOneQuery(segments) == segments[..k]
    decreases k
  {
    if k > 1 {
      QueryFetchesKPages(segments[1..], k - 1);
      assert segments[..k] == [segments[0]] + segments[1..][..k - 1];
    }
  }

  /** The entities of the fetched pages, concatenated in fetch order. */
  function PageResults(pages: seq<Segment>): seq<Option<Entity>>
  {
    if pages == [] then [] else PageResults(pages[..|pages| - 1]) + pages[|pages| - 1].results
  }

  /** The token sent with fetch i: none first, then the token the previous page returned. */
  function TokenSent(pages: seq<Segment>, i: nat): Option<Token>
    requires i < |pages|
  {
    if i == 0 then None else pages[i - 1].continuation
  }

  /** One segment request per page, each carrying the token of the page before. */
  function QueryRequests(query: Query, pages: seq<Segment>): (r: seq<Request>)
    ensures |r| == |pages|
    ensures forall i :: 0 <= i < |pages| ==> r[i] == QuerySegment(query, TokenSent(pages, i))
  {
    seq(|pages|, i requires 0 <= i < |pages| => QuerySegment(query, TokenSent(pages, i)))
  }

  /** The segment the next fetch receives is the next page, and the rest of the script follows it. */
  lemma NextPage(segments: seq<Segment>, pages: seq<Segment>, n: nat)
    requires n < |pages| <= |segments| && pages == segments[..|pages|]
    ensures segments[n..] != [] && segments[n..][0] == pages[n]
    ensures segments[n..][1..] == segments[n + 1..]
  {
    assert pages[n] == segments[..|pages|][n];
  }

  /** Fetching page n extends the results and the requests by that page's share. */
  lemma PageStep(query: Query, pages: seq<Segment>, n: nat)
    requires n < |pages|
    ensures PageResults(pages[..n + 1]) == PageResults(pages[..n]) + pages[n].results
    ensures QueryRequests(query, pages[..n + 1]) == QueryRequests(query, pages[..n]) + [QuerySegment(query, TokenSent(pages, n))]
  {
    assert pages[..n + 1][..n] == pages[..n];
  }

  // ---------------------------------------------------------------------
  // Version tags

  predicate IsNullOrEmpty(s: Option<string>)
  {
    s.None? || s.value == ""
  }

  /**
   * The rule of `GetETag`: a non-empty held tag as it is; otherwise the tag
   * of the row read back, or "*" when that read brings no tag (the row may
   * be missing).
   */
  function ResolvedETag(rows: map<Key, StoredRow>, held: Option<string>, key: Key): (tag: string)
    ensures !IsNullOrEmpty(held) ==> tag == held.value
    ensures IsNullOrEmpty(held) && key in rows && !IsNullOrEmpty(rows[key].eTag) ==> tag == rows[key].eTag.value
    ensures IsNullOrEmpty(held) && (key !in rows || IsNullOrEmpty(rows[key].eTag)) ==> tag == Wildcard
    ensures tag != ""
  {
    if !IsNullOrEmpty(held) then held.value
    else
      var fetched := RetrieveResult(rows, key).eTag;
      if IsNullOrEmpty(fetched) then Wildcard else fetched.value
  }

  /** The store reads `GetETag` makes: one point read exactly when no usable tag is held. */
  function ETagReads(held: Option<string>, key: Key): (r: seq<Request>)
    ensures !IsNullOrEmpty(held) <==> r == []
    ensures IsNullOrEmpty(held) ==> r == [Execute(Retrieve(key))]
  {
    if !IsNullOrEmpty(held) then [] else [Execute(Retrieve(key))]
  }

  // ---------------------------------------------------------------------
  // The repository

  class CloudTableRepository {
    var cloudTable: CloudTable?
    /** The proxy factory, reduced to the proxy type it builds for the entity type. */
    var proxyFactory: Option<ProxyScheme>

    /** Constructed and not yet disposed. */
    predicate Valid()
      reads this
    {
      cloudTable != null && proxyFactory.Some?
    }

    function Scheme(): ProxyScheme
      reads this
      requires Valid()
    {
      proxyFactory.value
    }

    /** Binds the table and makes sure it exists before anything else is sent. */
    constructor (table: CloudTable, factory: ProxyScheme)
      modifies table
      ensures Valid() && cloudTable == table && proxyFactory == Some(factory)
      ensures table.requests == old(table.requests) + [CreateTableIfNotExists]
      ensures table.rows == old(table.rows) && table.segments == old(table.segments)
    {
      cloudTable := table;
      table.CreateIfNotExists();
      proxyFactory := Some(factory);
    }

    // ----- single-row reads

    method GetTableResultByIdAsync(id: Option<string>) returns (r: Result<TableResult>)
      requires Valid()
      modifies cloudTable`requests
      ensures id.None? ==> r == Failure(ArgumentNull("id")) && cloudTable.requests == old(cloudTable.requests)
      ensures id.Some? ==>
        var key := Key(Scheme().buildPartitionKey(id), Scheme().buildRowKey(id));
        && r == Success(RetrieveResult(cloudTable.rows, key))
        && cloudTable.requests == old(cloudTable.requests) + [Execute(Retrieve(key))]
    {
      if id.None? {
        return Failure(ArgumentNull("id"));
      }
      var proxy := new TableEntityProxy.FromId(Scheme(), id);
      var pk := proxy.GetPartitionKey();
      var rk := proxy.GetRowKey();
      var tableResult := cloudTable.ExecuteAsync(Retrieve(Key(pk, rk)));
      r := Success(tableResult);
    }

    method GetTableResultByKeysAsync(partitionKey: Option<string>, rowKey: Option<string>) returns (r: Result<TableResult>)
      requires Valid()
      modifies cloudTable`requests
      ensures partitionKey.None? ==> r == Failure(ArgumentNull("PartitionKey"))
      ensures partitionKey.Some? && rowKey.None? ==> r == Failure(ArgumentNull("RowKey"))
      ensures r.Failure? ==> cloudTable.requests == old(cloudTable.requests)
      ensures partitionKey.Some? && rowKey.Some? ==>
        var key := Key(partitionKey.value, rowKey.value);
        && r == Success(RetrieveResult(cloudTable.rows, key))
        && cloudTable.requests == old(cloudTable.requests) + [Execute(Retrieve(key))]
    {
      if partitionKey.None? {
        return Failure(ArgumentNull("PartitionKey"));
      }
      if rowKey.None? {
        return Failure(ArgumentNull("RowKey"));
      }
      var tableResult := cloudTable.ExecuteAsync(Retrieve(Key(partitionKey.value, rowKey.value)));
      r := Success(tableResult);
    }

    /** `GetAsync(id)`: a missing row is a null entity, not an error. */
    method GetByIdAsync(id: Option<string>) returns (r: Result<Option<Entity>>)
      requires Valid()
      modifies cloudTable`requests
      ensures id.None? ==> r == Failure(ArgumentNull("id")) && cloudTable.requests == old(cloudTable.requests)
      ensures id.Some? ==>
        var key := Key(Scheme().buildPartitionKey(id), Scheme().buildRowKey(id));
        && r == Success(FreshProxyEntity(Scheme(), RetrieveResult(cloudTable.rows, key)))
        && (r.value.Some? <==> key in cloudTable.rows)
        && cloudTable.requests == old(cloudTable.requests) + [Execute(Retrieve(key))]
    {
      if id.None? {
        return Failure(ArgumentNull("id"));
      }
      var tableResult := GetTableResultByIdAsync(id);
      var proxy := new TableEntityProxy.Empty(Scheme());
      var e := proxy.GetEntityFromTableResult(tableResult.value);
      r := Success(e);
    }

    /** `GetAsync(partitionKey, rowKey)`: a direct point read. */
    method GetByKeysAsync(partitionKey: Option<string>, rowKey: Option<string>) returns (r: Result<Option<Entity>>)
      requires Valid()
      modifies cloudTable`requests
      ensures partitionKey.None? ==> r == Failure(ArgumentNull("PartitionKey"))
      ensures partitionKey.Some? && rowKey.None? ==> r == Failure(ArgumentNull("RowKey"))
      ensures r.Failure? ==> cloudTable.requests == old(cloudTable.requests)
      ensures partitionKey.Some? && rowKey.Some? ==>
        var key := Key(partitionKey.value, rowKey.value);
        && r == Success(FreshProxyEntity(Scheme(), RetrieveResult(cloudTable.rows, key)))
        && (r.value.Some? <==> key in cloudTable.rows)
        && cloudTable.requests == old(cloudTable.requests) + [Execute(Retrieve(key))]
    {
      if partitionKey.None? {
        return Failure(ArgumentNull("PartitionKey"));
      }
      if rowKey.None? {
        return Failure(ArgumentNull("RowKey"));
      }
      var tableResult := GetTableResultByKeysAsync(partitionKey, rowKey);
      var proxy := new TableEntityProxy.Empty(Scheme());
      var e := proxy.GetEntityFromTableResult(tableResult.value);
      r := Success(e);
    }

    // ----- queries

    /**
     * `GetAsync(query)`: fetches segment after segment, passing on each
     * returned token, until a segment comes back without one.
     */
    method GetAsync(query: Option<Query>) returns (r: Result<seq<Option<Entity>>>)
      requires Valid()
      requires query.Some? ==> QueryEnds(cloudTable.segments)
      modifies cloudTable`requests, cloudTable`segments
      ensures query.None? ==>
        && r == Failure(Argument("Query is null"))
        && cloudTable.requests == old(cloudTable.requests) && cloudTable.segments == old(cloudTable.segments)
      ensures query.Some? ==>
        var pages := PagesOfOneQuery(old(cloudTable.segments));
        && r == Success(PageResults(pages))
        && cloudTable.segments == old(cloudTable.segments)[|pages|..]
        && cloudTable.requests == old(cloudTable.requests) + QueryRequests(query.value, pages)
    {
      if query.None? {
        return Failure(Argument("Query is null"));
      }
      var q := query.value;
      ghost var segments0 := cloudTable.segments;
      ghost var requests0 := cloudTable.requests;
      ghost var pages := PagesOfOneQuery(segments0);
      var token: Option<Token> := None;
      var entities: seq<Option<Entity>> := [];
      var more := true;
      ghost var n: nat := 0;
      while more
        invariant n <= |pages|
        invariant more <==> n < |pages|
        invariant more ==> token == TokenSent(pages, n)
        invariant cloudTable.segments == segments0[n..]
        invariant entities == PageResults(pages[..n])
        invariant cloudTable.requests == requests0 + QueryRequests(q, pages[..n])
        decreases |pages| - n
      {
        NextPage(segments0, pages, n);
        var queryResult := cloudTable.ExecuteQuerySegmentedAsync(q, token);
        entities := entities + queryResult.results;
        token := queryResult.continuation;
        PageStep(q, pages, n);
        n := n + 1;
        more := token.Some?;
      }
      assert pages[..n] == pages;
      r := Success(entities);
    }

    /** `GetAsync()`: every row, as a query without a filter. */
    method GetAllAsync() returns (r: Result<seq<Option<Entity>>>)
      requires Valid() && QueryEnds(cloudTable.segments)
      modifies cloudTable`requests, cloudTable`segments
      ensures var pages := PagesOfOneQuery(old(cloudTable.segments));
        && r == Success(PageResults(pages))
        && cloudTable.segments == old(cloudTable.segments)[|pages|..]
        && cloudTable.requests == old(cloudTable.requests) + QueryRequests(Query(None), pages)
    {
      r := GetAsync(Some(Query(None)));
    }

    method GetByFilterAsync(filter: Option<Filter>) returns (r: Result<seq<Option<Entity>>>)
      requires Valid()
      requires filter.Some? ==> QueryEnds(cloudTable.segments)
      modifies cloudTable`requests, cloudTable`segments
      ensures filter.None? ==>
        && r == Failure(ArgumentNull("filter"))
        && cloudTable.requests == old(cloudTable.requests) && cloudTable.segments == old(cloudTable.segments)
      ensures filter.Some? ==>
        var pages := PagesOfOneQuery(old(cloudTable.segments));
        && r == Success(PageResults(pages))
        && cloudTable.segments == old(cloudTable.segments)[|pages|..]
        && cloudTable.requests == old(cloudTable.requests) + QueryRequests(Query(filter), pages)
    {
      if filter.None? {
        return Failure(ArgumentNull("filter"));
      }
      r := GetAsync(Some(Query(filter)));
    }

    /**
     * `GetByPropertiesAsync`: a query, scoped to this entity type's partition
     * family, for the rows whose properties equal all the given values.
     */
    method GetByPropertiesAsync(properties: seq<(string, string)>) returns (r: Result<seq<Option<Entity>>>)
      requires Valid() && QueryEnds(cloudTable.segments)
      modifies cloudTable`requests, cloudTable`segments
      ensures var filter := ConjoinProperties(Eq(PartitionKeyProperty, Scheme().buildPartitionKey(None)), properties);
        var pages := PagesOfOneQuery(old(cloudTable.segments));
        && r == Success(PageResults(pages))
        && cloudTable.segments == old(cloudTable.segments)[|pages|..]
        && cloudTable.requests == old(cloudTable.requests) + QueryRequests(Query(Some(filter)), pages)
    {
      var partitionKey := Scheme().buildPartitionKey(None);
      var filter := BuildPropertiesFilter(partitionKey, properties);
      r := GetByFilterAsync(Some(filter));
    }

    // ----- version tags

    /**
     * `GetETag`: the proxy's own tag when it is not empty; otherwise the tag
     * of one point read of the proxy's row, "*" when that read brings none.
     */
    method GetETag(proxy: TableEntityProxy) returns (tag: string)
      requires Valid() && proxy.HasPartitionKey() && proxy.HasRowKey()
      modifies proxy, cloudTable`requests
      ensures proxy.HasPartitionKey() && proxy.HasRowKey() && proxy.Row() == old(proxy.Row())
      ensures proxy.timestamp == old(proxy.timestamp)
      ensures var key := Key(old(proxy.PartitionKeyView()), old(proxy.RowKeyView()));
        && tag == ResolvedETag(cloudTable.rows, old(proxy.ETagView()), key)
        && cloudTable.requests == old(cloudTable.requests) + ETagReads(old(proxy.ETagView()), key)
    {
      var held := proxy.GetETag();
      if !IsNullOrEmpty(held) {
        return held.value;
      }
      var pk := proxy.GetPartitionKey();
      var rk := proxy.GetRowKey();
      var tableResult := GetTableResultByKeysAsync(Some(pk), Some(rk));
      tag := if IsNullOrEmpty(tableResult.value.eTag) then Wildcard else tableResult.value.eTag.value;
    }

    // ----- single-row writes

    method AddAndReturnTableResultAsync(entity: Option<Entity>) returns (r: Result<TableResult>)
      requires Valid()
      modifies cloudTable`requests
      ensures entity.None? ==> r == Failure(ArgumentNull("value")) && cloudTable.requests == old(cloudTable.requests)
      ensures entity.Some? ==>
        var op := Insert(EntityRow(Scheme(), entity.value));
        && r == Success(cloudTable.operationResponse(op))
        && cloudTable.requests == old(cloudTable.requests) + [Execute(op)]
    {
      var built := NewFromEntity(Scheme(), entity);
      if built.Failure? {
        return Failure(built.error);
      }
      var tableResult := cloudTable.ExecuteAsync(Insert(built.value.Row()));
      r := Success(tableResult);
    }

    method AddAsync(entity: Option<Entity>) returns (r: Result<Option<Entity>>)
      requires Valid()
      modifies cloudTable`requests
      ensures entity.None? ==> r == Failure(ArgumentNull("value")) && cloudTable.requests == old(cloudTable.requests)
      ensures entity.Some? ==>
        var op := Insert(EntityRow(Scheme(), entity.value));
        && r == Success(FreshProxyEntity(Scheme(), cloudTable.operationResponse(op)))
        && cloudTable.requests == old(cloudTable.requests) + [Execute(op)]
    {
      var proxy := new TableEntityProxy.Empty(Scheme());
      var tableResult := AddAndReturnTableResultAsync(entity);
      if tableResult.Failure? {
        return Failure(tableResult.error);
      }
      var e := proxy.GetEntityFromTableResult(tableResult.value);
      r := Success(e);
    }

    /** `UpdateAndReturnTableResultAsync`: resolves the version tag, then a conditional replace. */
    method UpdateAndReturnTableResultAsync(entity: Option<Entity>) returns (r: Result<TableResult>)
      requires Valid()
      modifies cloudTable`requests
      ensures entity.None? ==> r == Failure(ArgumentNull("value")) && cloudTable.requests == old(cloudTable.requests)
      ensures entity.Some? ==>
        var row := EntityRow(Scheme(), entity.value);
        var key := Key(row.partitionKey, row.rowKey);
        var op := Replace(row.(eTag := Some(ResolvedETag(cloudTable.rows, row.eTag, key))));
        && r == Success(cloudTable.operationResponse(op))
        && cloudTable.requests == old(cloudTable.requests) + ETagReads(row.eTag, key) + [Execute(op)]
    {
      var built := NewFromEntity(Scheme(), entity);
      if built.Failure? {
        return Failure(built.error);
      }
      var proxy := built.value;
      var tag := GetETag(proxy);
      proxy.SetETag(Some(tag));
      var tableResult := cloudTable.ExecuteAsync(Replace(proxy.Row()));
      r := Success(tableResult);
    }

    method UpdateAsync(entity: Option<Entity>) returns (r: Result<Option<Entity>>)
      requires Valid()
      modifies cloudTable`requests
      ensures entity.None? ==> r == Failure(ArgumentNull("value")) && cloudTable.requests == old(cloudTable.requests)
      ensures entity.Some? ==>
        var row := EntityRow(Scheme(), entity.value);
        var key := Key(row.partitionKey, row.rowKey);
        var op := Replace(row.(eTag := Some(ResolvedETag(cloudTable.rows, row.eTag, key))));
        && r == Success(FreshProxyEntity(Scheme(), cloudTable.operationResponse(op)))
        && cloudTable.requests == old(cloudTable.requests) + ETagReads(row.eTag, key) + [Execute(op)]
    {
      var tableResult := UpdateAndReturnTableResultAsync(entity);
      if tableResult.Failure? {
        return Failure(tableResult.error);
      }
      var proxy := new TableEntityProxy.Empty(Scheme());
      var e := proxy.GetEntityFromTableResult(tableResult.value);
      r := Success(e);
    }

    /** `RemoveAsync(entity)`: resolves the version tag, then a conditional delete. */
    method RemoveAsync(entity: Option<Entity>) returns (r: Result<()>)
      requires Valid()
      modifies cloudTable`requests
      ensures entity.None? ==> r == Failure(ArgumentNull("value")) && cloudTable.requests == old(cloudTable.requests)
      ensures entity.Some? ==>
        var row := EntityRow(Scheme(), entity.value);
        var key := Key(row.partitionKey, row.rowKey);
        var op := Delete(row.(eTag := Some(ResolvedETag(cloudTable.rows, row.eTag, key))));
        && r == Success(())
        && cloudTable.requests == old(cloudTable.requests) + ETagReads(row.eTag, key) + [Execute(op)]
    {
      var built := NewFromEntity(Scheme(), entity);
      if built.Failure? {
        return Failure(built.error);
      }
      var proxy := built.value;
      var tag := GetETag(proxy);
      proxy.SetETag(Some(tag));
      var _ := cloudTable.ExecuteAsync(Delete(proxy.Row()));
      r := Success(());
    }

    /** `RemoveAndReturnTableResultAsync(id)`: the row addressed through the id's keys. */
    method RemoveAndReturnTableResultAsync(id: Option<string>) returns (r: Result<TableResult>)
      requires Valid()
      modifies cloudTable`requests
      ensures id.None? ==> r == Failure(ArgumentNull("id")) && cloudTable.requests == old(cloudTable.requests)
      ensures id.Some? ==>
        var row := IdRow(Scheme(), id);
        var key := Key(row.partitionKey, row.rowKey);
        var op := Delete(row.(eTag := Some(ResolvedETag(cloudTable.rows, row.eTag, key))));
        && r == Success(cloudTable.operationResponse(op))
        && cloudTable.requests == old(cloudTable.requests) + ETagReads(row.eTag, key) + [Execute(op)]
    {
      if id.None? {
        return Failure(ArgumentNull("id"));
      }
      var proxy := new TableEntityProxy.FromId(Scheme(), id);
      var tag := GetETag(proxy);
      proxy.SetETag(Some(tag));
      var tableResult := cloudTable.ExecuteAsync(Delete(proxy.Row()));
      r := Success(tableResult);
    }

    method RemoveByIdAsync(id: Option<string>) returns (r: Result<()>)
      requires Valid()
      modifies cloudTable`requests
      ensures id.None? ==> r == Failure(ArgumentNull("id")) && cloudTable.requests == old(cloudTable.requests)
      ensures id.Some? ==>
        var row := IdRow(Scheme(), id);
        var key := Key(row.partitionKey, row.rowKey);
        var op := Delete(row.(eTag := Some(ResolvedETag(cloudTable.rows, row.eTag, key))));
        && r == Success(())
        && cloudTable.requests == old(cloudTable.requests) + ETagReads(row.eTag, key) + [Execute(op)]
    {
      if id.None? {
        return Failure(ArgumentNull("id"));
      }
      var _ := RemoveAndReturnTableResultAsync(id);
      r := Success(());
    }

    method InsertOrMergeAndReturnTableResultAsync(entity: Option<Entity>) returns (r: Result<TableResult>)
      requires Valid()
      modifies cloudTable`requests
      ensures entity.None? ==> r == Failure(ArgumentNull("value")) && cloudTable.requests == old(cloudTable.requests)
      ensures entity.Some? ==>
        var op := InsertOrMerge(EntityRow(Scheme(), entity.value));
        && r == Success(cloudTable.operationResponse(op))
        && cloudTable.requests == old(cloudTable.requests) + [Execute(op)]
    {
      var built := NewFromEntity(Scheme(), entity);
      if built.Failure? {
        return Failure(built.error);
      }
      var tableResult := cloudTable.ExecuteAsync(InsertOrMerge(built.value.Row()));
      r := Success(tableResult);
    }

    method InsertOrMergeAsync(entity: Option<Entity>) returns (r: Result<Option<Entity>>)
      requires Valid()
      modifies cloudTable`requests
      ensures entity.None? ==> r == Failure(ArgumentNull("value")) && cloudTable.requests == old(cloudTable.requests)
      ensures entity.Some? ==>
        var op := InsertOrMerge(EntityRow(Scheme(), entity.value));
        && r == Success(FreshProxyEntity(Scheme(), cloudTable.operationResponse(op)))
        && cloudTable.requests == old(cloudTable.requests) + [Execute(op)]
    {
      var proxy := new TableEntityProxy.Empty(Scheme());
      var tableResult := InsertOrMergeAndReturnTableResultAsync(entity);
      if tableResult.Failure? {
        return Failure(tableResult.error);
      }
      var e := proxy.GetEntityFromTableResult(tableResult.value);
      r := Success(e);
    }

    // ----- batches

    /**
     * `ExecuteBatchAsLimitedBatchesAsync`: one submission when the batch is
     * within the limit, otherwise the chunks one after the other, with their
     * results concatenated in chunk order.
     */
    method ExecuteBatchAsLimitedBatchesAsync(batch: seq<TableOperation>) returns (results: seq<TableResult>)
      requires Valid()
      modifies cloudTable`requests
      ensures cloudTable.requests == old(cloudTable.requests) + BatchRequests(Submissions(batch))
      ensures results == Responses(cloudTable.batchResponse, Submissions(batch))
    {
      if IsBatchCountUnderSupportedOperationsLimit(batch) {
        results := cloudTable.ExecuteBatchAsync(batch);
        SubmissionStep(cloudTable.batchResponse, [batch], 0);
        return;
      }
      results := [];
      var limitedBatchOperationLists := GetLimitedBatchOperationLists(batch);
      ghost var requests0 := cloudTable.requests;
      for k := 0 to |limitedBatchOperationLists|
        invariant cloudTable.requests == requests0 + BatchRequests(limitedBatchOperationLists[..k])
        invariant results == Responses(cloudTable.batchResponse, limitedBatchOperationLists[..k])
      {
        var limitedBatch := CreateLimitedTableBatchOperation(limitedBatchOperationLists[k]);
        var limitedBatchResult := cloudTable.ExecuteBatchAsync(limitedBatch);
        results := results + limitedBatchResult;
        SubmissionStep(cloudTable.batchResponse, limitedBatchOperationLists, k);
      }
      assert limitedBatchOperationLists[..|limitedBatchOperationLists|] == limitedBatchOperationLists;
    }

    method AddRangeAndReturnTableResultsAsync(entities: seq<Option<Entity>>) returns (r: Result<seq<TableResult>>)
      requires Valid()
      modifies cloudTable`requests
      ensures !AllPresent(entities) ==> r == Failure(ArgumentNull("value")) && cloudTable.requests == old(cloudTable.requests)
      ensures AllPresent(entities) ==>
        var submissions := Submissions(BatchOperations(Scheme(), entities, InsertKind));
        && r == Success(Responses(cloudTable.batchResponse, submissions))
        && cloudTable.requests == old(cloudTable.requests) + BatchRequests(submissions)
    {
      var batch := BuildBatchOperations(Scheme(), entities, InsertKind);
      if batch.Failure? {
        return Failure(batch.error);
      }
      var results := ExecuteBatchAsLimitedBatchesAsync(batch.value);
      r := Success(results);
    }

    /** `UpdateRangeAndReturnTableResultsAsync`: replaces with each proxy's own tag; no tag is read back. */
    method UpdateRangeAndReturnTableResultsAsync(entities: seq<Option<Entity>>) returns (r: Result<seq<TableResult>>)
      requires Valid()
      modifies cloudTable`requests
      ensures !AllPresent(entities) ==> r == Failure(ArgumentNull("value")) && cloudTable.requests == old(cloudTable.requests)
      ensures AllPresent(entities) ==>
        var submissions := Submissions(BatchOperations(Scheme(), entities, ReplaceKind));
        && r == Success(Responses(cloudTable.batchResponse, submissions))
        && cloudTable.requests == old(cloudTable.requests) + BatchRequests(submissions)
    {
      var batch := BuildBatchOperations(Scheme(), entities, ReplaceKind);
      if batch.Failure? {
        return Failure(batch.error);
      }
      var results := ExecuteBatchAsLimitedBatchesAsync(batch.value);
      r := Success(results);
    }

    method InsertOrReplaceRangeAndReturnTableResultsAsync(entities: seq<Option<Entity>>) returns (r: Result<seq<TableResult>>)
      requires Valid()
      modifies cloudTable`requests
      ensures !AllPresent(entities) ==> r == Failure(ArgumentNull("value")) && cloudTable.requests == old(cloudTable.requests)
      ensures AllPresent(entities) ==>
        var submissions := Submissions(BatchOperations(Scheme(), entities, InsertOrReplaceKind));
        && r == Success(Responses(cloudTable.batchResponse, submissions))
        && cloudTable.requests == old(cloudTable.requests) + BatchRequests(submissions)
    {
      var batch := BuildBatchOperations(Scheme(), entities, InsertOrReplaceKind);
      if batch.Failure? {
        return Failure(batch.error);
      }
      var results := ExecuteBatchAsLimitedBatchesAsync(batch.value);
      r := Success(results);
    }

    method AddRangeAsync(entities: seq<Option<Entity>>) returns (r: Result<seq<Option<Entity>>>)
      requires Valid()
      modifies cloudTable`requests
      ensures !AllPresent(entities) ==> r == Failure(ArgumentNull("value")) && cloudTable.requests == old(cloudTable.requests)
      ensures AllPresent(entities) ==>
        var submissions := Submissions(BatchOperations(Scheme(), entities, InsertKind));
        var results := Responses(cloudTable.batchResponse, submissions);
        && cloudTable.requests == old(cloudTable.requests) + BatchRequests(submissions)
        && r.Success? && |r.value| == |results|
        && forall i :: 0 <= i < |results| ==> r.value[i] == FreshProxyEntity(Scheme(), results[i])
    {
      var results := AddRangeAndReturnTableResultsAsync(entities);
      if results.Failure? {
        return Failure(results.error);
      }
      var resultList := EntitiesFromTableResults(Scheme(), results.value);
      r := Success(resultList);
    }

    method UpdateRangeAsync(entities: seq<Option<Entity>>) returns (r: Result<seq<Option<Entity>>>)
      requires Valid()
      modifies cloudTable`requests
      ensures !AllPresent(entities) ==> r == Failure(ArgumentNull("value")) && cloudTable.requests == old(cloudTable.requests)
      ensures AllPresent(entities) ==>
        var submissions := Submissions(BatchOperations(Scheme(), entities, ReplaceKind));
        var results := Responses(cloudTable.batchResponse, submissions);
        && cloudTable.requests == old(cloudTable.requests) + BatchRequests(submissions)
        && r.Success? && |r.value| == |results|
        && forall i :: 0 <= i < |results| ==> r.value[i] == FreshProxyEntity(Scheme(), results[i])
    {
      var results := UpdateRangeAndReturnTableResultsAsync(entities);
      if results.Failure? {
        return Failure(results.error);
      }
      var resultList := EntitiesFromTableResults(Scheme(), results.value);
      r := Success(resultList);
    }

    method InsertOrReplaceRangeAsync(entities: seq<Option<Entity>>) returns (r: Result<seq<Option<Entity>>>)
      requires Valid()
      modifies cloudTable`requests
      ensures !AllPresent(entities) ==> r == Failure(ArgumentNull("value")) && cloudTable.requests == old(cloudTable.requests)
      ensures AllPresent(entities) ==>
        var submissions := Submissions(BatchOperations(Scheme(), entities, InsertOrReplaceKind));
        var results := Responses(cloudTable.batchResponse, submissions);
        && cloudTable.requests == old(cloudTable.requests) + BatchRequests(submissions)
        && r.Success? && |r.value| == |results|
        && forall i :: 0 <= i < |results| ==> r.value[i] == FreshProxyEntity(Scheme(), results[i])
    {
      var results := InsertOrReplaceRangeAndReturnTableResultsAsync(entities);
      if results.Failure? {
        return Failure(results.error);
      }
      var resultList := EntitiesFromTableResults(Scheme(), results.value);
      r := Success(resultList);
    }

    /** `Dispose`: drops the table and the proxy factory. */
    method Dispose()
      modifies this
      ensures cloudTable == null && proxyFactory.None?
    {
      cloudTable := null;
      proxyFactory := None;
    }
  }
}
