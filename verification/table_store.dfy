/**
 * The partition-key/row-key table store as this layer sees it: the values it
 * exchanges with the store and an abstract `CloudTable` that answers point
 * reads from a map of rows, answers segmented queries from a scripted list of
 * segments, answers writes and batches through fixed response functions, and
 * logs every request it receives in order.
 */
module TableStore {
  import opened Outcomes

  /** A row's flat property map (`IDictionary<string, EntityProperty>`). */
  type Properties = map<string, string>

  /** A continuation token returned by a segmented query. */
  type Token = string

  /** `DateTimeOffset`, kept opaque; 0 is `default(DateTimeOffset)`. */
  type Timestamp = int

  const DefaultTimestamp: Timestamp := 0

  /** A domain entity: its caller-assigned `Id` and the fields the row mapping fills. */
  datatype Entity = Entity(id: Option<string>, fields: Properties)

  /** `new TEntity()`: no id, no fields. */
  const BlankEntity := Entity(None, map[])

  /** The table's addressing key. */
  datatype Key = Key(partitionKey: string, rowKey: string)

  /** What the store holds under a key: the row's version tag and properties. */
  datatype StoredRow = StoredRow(eTag: Option<string>, properties: Properties)

  /** What an entity proxy presents to the store when an operation is built from it. */
  datatype ProxyRow = ProxyRow(partitionKey: string, rowKey: string, eTag: Option<string>, entity: Option<Entity>)

  /** `TableOperation`: the single-row operations. */
  datatype TableOperation =
    | Insert(row: ProxyRow)
    | Replace(row: ProxyRow)
    | Delete(row: ProxyRow)
    | InsertOrMerge(row: ProxyRow)
    | InsertOrReplace(row: ProxyRow)
    | Retrieve(key: Key)

  /** `TableResult.Result`: null, a `DynamicTableEntity`, or any other object. */
  datatype ResultObject =
    | NoObject
    | DynamicRow(partitionKey: string, rowKey: string, properties: Properties)
    | OtherObject

  /** `TableResult`: the result object and the version tag the store reported. */
  datatype TableResult = TableResult(result: ResultObject, eTag: Option<string>)

  /** A query filter: a property equality, or the AND of two filters. */
  datatype Filter = Eq(property: string, value: string) | And(left: Filter, right: Filter)

  /** `TableQuery`: without a filter it selects every row. */
  datatype Query = Query(filter: Option<Filter>)

  /** One page of a segmented query: the resolved entities and the next token. */
  datatype Segment = Segment(results: seq<Option<Entity>>, continuation: Option<Token>)

  /** A request received by the store. */
  datatype Request =
    | CreateTableIfNotExists
    | Execute(op: TableOperation)
    | ExecuteBatch(batch: seq<TableOperation>)
    | QuerySegment(query: Query, token: Option<Token>)

  /** The answer to `Retrieve(key)`: a dynamic row with the stored tag, or no object. */
  function RetrieveResult(rows: map<Key, StoredRow>, key: Key): (r: TableResult)
    ensures r.result.DynamicRow? <==> key in rows
    ensures r.result.NoObject? <==> key !in rows
    ensures key in rows ==> r.result.properties == rows[key].properties && r.eTag == rows[key].eTag
    ensures key !in rows ==> r.eTag.None?
  {
    if key in rows then
      TableResult(DynamicRow(key.partitionKey, key.rowKey, rows[key].properties), rows[key].eTag)
    else
      TableResult(NoObject, None)
  }

  /** A segment list in which some segment ends the query with a null token. */
  predicate QueryEnds(segments: seq<Segment>)
  {
    segments != [] && (segments[0].continuation.None? || QueryEnds(segments[1..]))
  }

  class CloudTable {
    /** The rows point reads see. */
    var rows: map<Key, StoredRow>
    /** The answers to the coming segmented queries, in order. */
    var segments: seq<Segment>
    /** Every request received so far, oldest first. */
    var requests: seq<Request>
    /** The store's answer to a single write operation. */
    const operationResponse: TableOperation -> TableResult
    /** The store's answer to a batch: one result per operation. */
    const batchResponse: seq<TableOperation> -> seq<TableResult>

    constructor (rows: map<Key, StoredRow>, segments: seq<Segment>,
                 operationResponse: TableOperation -> TableResult,
                 batchResponse: seq<TableOperation> -> seq<TableResult>)
      ensures this.rows == rows && this.segments == segments && requests == []
      ensures this.operationResponse == operationResponse && this.batchResponse == batchResponse
    {
      this.rows := rows;
      this.segments := segments;
      this.requests := [];
      this.operationResponse := operationResponse;
      this.batchResponse := batchResponse;
    }

    /** The store's answer to a single operation. */
    function Response(op: TableOperation): (r: TableResult)
      reads this
      ensures op.Retrieve? ==> r == RetrieveResult(rows, op.key)
    {
      if op.Retrieve? then RetrieveResult(rows, op.key) else operationResponse(op)
    }

    method CreateIfNotExists()
      modifies this`requests
      ensures requests == old(requests) + [CreateTableIfNotExists]
    {
      requests := requests + [CreateTableIfNotExists];
    }

    method ExecuteAsync(op: TableOperation) returns (r: TableResult)
      modifies this`requests
      ensures r == Response(op)
      ensures requests == old(requests) + [Execute(op)]
    {
      r := Response(op);
      requests := requests + [Execute(op)];
    }

    method ExecuteBatchAsync(batch: seq<TableOperation>) returns (r: seq<TableResult>)
      modifies this`requests
      ensures r == batchResponse(batch)
      ensures requests == old(requests) + [ExecuteBatch(batch)]
    {
      r := batchResponse(batch);
      requests := requests + [ExecuteBatch(batch)];
    }

    method ExecuteQuerySegmentedAsync(query: Query, token: Option<Token>) returns (r: Segment)
      requires segments != []
      modifies this`requests, this`segments
      ensures r == old(segments[0]) && segments == old(segments[1..])
      ensures requests == old(requests) + [QuerySegment(query, token)]
    {
      r := segments[0];
      segments := segments[1..];
      requests := requests + [QuerySegment(query, token)];
    }
  }
}
