/**
 * `TableEntityProxy`: wraps one domain entity as a table row, deriving the
 * partition key, row key and version tag lazily and caching them.
 */
module EntityProxy {
  import opened Outcomes
  import opened TableStore

  /** The version tag "skip the concurrency check" (last write wins). */
  const Wildcard := "*"

  /** What `BuildETag` returns: the default wildcard, or a subtype's own value (null included). */
  datatype ETagPolicy = LastWriteWins | Custom(tag: Option<string>)

  /**
   * The members a concrete proxy type supplies: `BuildPartitionKey`,
   * `BuildRowKey`, `BuildETag`, and the row-to-entity mapping (the library's
   * reflective `ReadUserObject` on a fresh entity followed by `ReadValues`).
   */
  datatype ProxyScheme = ProxyScheme(
    buildPartitionKey: Option<string> -> string,
    buildRowKey: Option<string> -> string,
    eTagPolicy: ETagPolicy,
    hydrate: Properties -> Entity)

  /** `BuildETag()`: "*" unless the proxy type says otherwise. */
  function BuildETag(policy: ETagPolicy): (tag: Option<string>)
    ensures policy.LastWriteWins? ==> tag == Some(Wildcard)
    ensures policy.Custom? ==> tag == policy.tag
  {
    match policy
    case LastWriteWins => Some(Wildcard)
    case Custom(t) => t
  }

  /** The row a proxy built from entity `e` presents: keys and tag derived from `e`. */
  function EntityRow(scheme: ProxyScheme, e: Entity): ProxyRow
  {
    ProxyRow(scheme.buildPartitionKey(e.id), scheme.buildRowKey(e.id), BuildETag(scheme.eTagPolicy), Some(e))
  }

  /** The row a proxy built from identifier `id` presents. */
  function IdRow(scheme: ProxyScheme, id: Option<string>): ProxyRow
  {
    ProxyRow(scheme.buildPartitionKey(id), scheme.buildRowKey(id), BuildETag(scheme.eTagPolicy), Some(Entity(id, map[])))
  }

  /**
   * What `GetEntityFromTableResult` returns on a proxy made by the
   * parameterless constructor: only a dynamic row yields an entity.
   */
  function FreshProxyEntity(scheme: ProxyScheme, tr: TableResult): (e: Option<Entity>)
    ensures e.Some? <==> tr.result.DynamicRow?
    ensures tr.result.DynamicRow? ==> e == Some(scheme.hydrate(tr.result.properties))
  {
    if tr.result.DynamicRow? then Some(scheme.hydrate(tr.result.properties)) else None
  }

  class TableEntityProxy {
    const scheme: ProxyScheme
    var partitionKey: Option<string>
    var rowKey: Option<string>
    var eTag: Option<string>
    var entity: Option<Entity>
    var timestamp: Timestamp

    /** The partition key can be read: it is cached, or there is an entity to derive it from. */
    predicate HasPartitionKey()
      reads this
    {
      partitionKey.Some? || entity.Some?
    }

    predicate HasRowKey()
      reads this
    {
      rowKey.Some? || entity.Some?
    }

    /** The value the `PartitionKey` getter returns in this state. */
    function PartitionKeyView(): string
      reads this
      requires HasPartitionKey()
    {
      if partitionKey.Some? then partitionKey.value else scheme.buildPartitionKey(entity.value.id)
    }

    /** The value the `RowKey` getter returns in this state. */
    function RowKeyView(): string
      reads this
      requires HasRowKey()
    {
      if rowKey.Some? then rowKey.value else scheme.buildRowKey(entity.value.id)
    }

    /** The value the `ETag` getter returns in this state. */
    function ETagView(): Option<string>
      reads this
    {
      if eTag.Some? then eTag else BuildETag(scheme.eTagPolicy)
    }

    /** The row an operation built from this proxy presents to the store. */
    function Row(): ProxyRow
      reads this
      requires HasPartitionKey() && HasRowKey()
    {
      ProxyRow(PartitionKeyView(), RowKeyView(), ETagView(), entity)
    }

    /** The parameterless constructor: nothing set. */
    constructor Empty(scheme: ProxyScheme)
      ensures this.scheme == scheme
      ensures partitionKey.None? && rowKey.None? && eTag.None? && entity.None?
      ensures timestamp == DefaultTimestamp
    {
      this.scheme := scheme;
      partitionKey, rowKey, eTag, entity := None, None, None, None;
      timestamp := DefaultTimestamp;
    }

    /** The entity constructor, once the null check has passed (see `NewFromEntity`). */
    constructor FromEntity(scheme: ProxyScheme, value: Entity)
      ensures this.scheme == scheme
      ensures partitionKey.None? && rowKey.None? && eTag.None? && entity == Some(value)
      ensures timestamp == DefaultTimestamp
      ensures Row() == EntityRow(scheme, value)
    {
      this.scheme := scheme;
      partitionKey, rowKey, eTag, entity := None, None, None, Some(value);
      timestamp := DefaultTimestamp;
    }

    /** The id constructor: keys built from `id`, a fresh entity carrying `id`. */
    constructor FromId(scheme: ProxyScheme, id: Option<string>)
      ensures this.scheme == scheme
      ensures partitionKey == Some(scheme.buildPartitionKey(id))
      ensures rowKey == Some(scheme.buildRowKey(id))
      ensures eTag.None? && entity == Some(Entity(id, map[]))
      ensures timestamp == DefaultTimestamp
      ensures Row() == IdRow(scheme, id)
    {
      this.scheme := scheme;
      eTag := None;
      timestamp := DefaultTimestamp;
      partitionKey := Some(scheme.buildPartitionKey(id));
      rowKey := Some(scheme.buildRowKey(id));
      entity := Some(Entity(id, map[]));
    }

    /** The (partitionKey, rowKey) constructor, once both null checks have passed (see `NewFromKeys`). */
    constructor FromKeys(scheme: ProxyScheme, partitionKey: string, rowKey: string)
      ensures this.scheme == scheme
      ensures this.partitionKey == Some(partitionKey) && this.rowKey == Some(rowKey)
      ensures eTag.None? && entity == Some(BlankEntity)
      ensures timestamp == DefaultTimestamp
    {
      this.scheme := scheme;
      eTag := None;
      timestamp := DefaultTimestamp;
      this.partitionKey := Some(partitionKey);
      this.rowKey := Some(rowKey);
      entity := Some(BlankEntity);
    }

    /** `PartitionKey` get: computes the key on first read and caches it. */
    method GetPartitionKey() returns (pk: string)
      requires HasPartitionKey()
      modifies this`partitionKey
      ensures pk == old(PartitionKeyView())
      ensures partitionKey == Some(pk) && PartitionKeyView() == pk
    {
      if partitionKey.None? {
        partitionKey := Some(scheme.buildPartitionKey(entity.value.id));
      }
      pk := partitionKey.value;
    }

    /** `PartitionKey` set: a non-null value is what later reads return. */
    method SetPartitionKey(value: Option<string>)
      modifies this`partitionKey
      ensures partitionKey == value
      ensures value.Some? ==> PartitionKeyView() == value.value
    {
      partitionKey := value;
    }

    /** `RowKey` get: computes the key on first read and caches it. */
    method GetRowKey() returns (rk: string)
      requires HasRowKey()
      modifies this`rowKey
      ensures rk == old(RowKeyView())
      ensures rowKey == Some(rk) && RowKeyView() == rk
    {
      if rowKey.None? {
        rowKey := Some(scheme.buildRowKey(entity.value.id));
      }
      rk := rowKey.value;
    }

    /** `RowKey` set. */
    method SetRowKey(value: Option<string>)
      modifies this`rowKey
      ensures rowKey == value
      ensures value.Some? ==> RowKeyView() == value.value
    {
      rowKey := value;
    }

    /** `ETag` get: a set value (even "") wins; otherwise `BuildETag()` is cached. */
    method GetETag() returns (tag: Option<string>)
      modifies this`eTag
      ensures tag == old(ETagView())
      ensures eTag == tag && ETagView() == tag
      ensures old(eTag).Some? ==> tag == old(eTag)
    {
      if eTag.None? {
        eTag := BuildETag(scheme.eTagPolicy);
      }
      tag := eTag;
    }

    /** `ETag` set. */
    method SetETag(value: Option<string>)
      modifies this`eTag
      ensures eTag == value
      ensures value.Some? ==> ETagView() == value
    {
      eTag := value;
    }

    /** Replaces the entity by a fresh one hydrated from `properties`. */
    method ReadEntity(properties: Properties)
      modifies this`entity
      ensures entity == Some(scheme.hydrate(properties))
    {
      entity := Some(scheme.hydrate(properties));
    }

    /**
     * The query resolver: a row of this proxy's partition family (its key
     * equals `BuildPartitionKey(null)`) is copied in and hydrated; any other
     * row leaves keys and entity alone. The timestamp is taken either way;
     * the row's version tag is ignored.
     */
    method ResolveEntity(pk: string, rk: string, ts: Timestamp, properties: Properties, rowETag: Option<string>)
      returns (r: Option<Entity>)
      modifies this
      ensures pk == scheme.buildPartitionKey(None) ==>
        partitionKey == Some(pk) && rowKey == Some(rk) && entity == Some(scheme.hydrate(properties))
      ensures pk != scheme.buildPartitionKey(None) ==>
        partitionKey == old(partitionKey) && rowKey == old(rowKey) && entity == old(entity)
      ensures eTag == old(eTag) && timestamp == ts
      ensures r == entity
    {
      if pk == scheme.buildPartitionKey(None) {
        partitionKey := Some(pk);
        rowKey := Some(rk);
        ReadEntity(properties);
      }
      timestamp := ts;
      r := entity;
    }

    /**
     * The entity behind a store result: none when the result object is null,
     * the hydrated row for a dynamic row (whose keys are copied in), and the
     * current entity, untouched, for any other object.
     */
    method GetEntityFromTableResult(tr: TableResult) returns (r: Option<Entity>)
      modifies this
      ensures tr.result.NoObject? ==> r.None? && unchanged(this)
      ensures tr.result.OtherObject? ==> r == entity && unchanged(this)
      ensures tr.result.DynamicRow? ==>
        && partitionKey == Some(tr.result.partitionKey) && rowKey == Some(tr.result.rowKey)
        && entity == Some(scheme.hydrate(tr.result.properties)) && r == entity
        && eTag == old(eTag) && timestamp == old(timestamp)
    {
      if tr.result.NoObject? {
        return None;
      }
      if tr.result.DynamicRow? {
        partitionKey := Some(tr.result.partitionKey);
        rowKey := Some(tr.result.rowKey);
        ReadEntity(tr.result.properties);
      }
      r := entity;
    }
  }

  /** The entity constructor with its null check. */
  method NewFromEntity(scheme: ProxyScheme, value: Option<Entity>) returns (r: Result<TableEntityProxy>)
    ensures value.None? ==> r == Failure(ArgumentNull("value"))
    ensures value.Some? ==>
      r.Success? && fresh(r.value) && r.value.scheme == scheme
      && r.value.HasPartitionKey() && r.value.HasRowKey()
      && r.value.Row() == EntityRow(scheme, value.value)
      && r.value.timestamp == DefaultTimestamp
  {
    if value.None? {
      return Failure(ArgumentNull("value"));
    }
    var proxy := new TableEntityProxy.FromEntity(scheme, value.value);
    r := Success(proxy);
  }

  /** The (partitionKey, rowKey) constructor with its null checks, partition key first. */
  method NewFromKeys(scheme: ProxyScheme, partitionKey: Option<string>, rowKey: Option<string>)
    returns (r: Result<TableEntityProxy>)
    ensures partitionKey.None? ==> r == Failure(ArgumentNull("partitionKey"))
    ensures partitionKey.Some? && rowKey.None? ==> r == Failure(ArgumentNull("rowKey"))
    ensures partitionKey.Some? && rowKey.Some? ==>
      r.Success? && fresh(r.value) && r.value.scheme == scheme
      && r.value.partitionKey == partitionKey && r.value.rowKey == rowKey
      && r.value.eTag.None? && r.value.entity == Some(BlankEntity)
  {
    if partitionKey.None? {
      return Failure(ArgumentNull("partitionKey"));
    }
    if rowKey.None? {
      return Failure(ArgumentNull("rowKey"));
    }
    var proxy := new TableEntityProxy.FromKeys(scheme, partitionKey.value, rowKey.value);
    r := Success(proxy);
  }
}
