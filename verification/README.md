# OkonkwoCore table-storage repository, modelled in Dafny

This project models the storage layer of OkonkwoCore.Netx. That layer keeps
domain entities in a partition-key/row-key table store. It has three parts:

- `CloudTableRepository`: CRUD, filtered and paged queries, and range writes
  that it splits into batches the store accepts (at most 100 operations each).
- `TableEntityProxy`: wraps one entity as a table row. It derives the row's
  partition key, row key and version tag lazily and caches them. It also turns
  the store's results back into entities.
- `Extensions`: the `ChunkBy` list splitter and the `TrimEnd` suffix trimmer.

Files:

- `outcomes.dfy`: C# `null` becomes `Option`. A thrown `ArgumentNullException`
  or `ArgumentException` becomes the `Failure` case of `Result`.
- `table_store.dfy`: the store as this layer sees it. `CloudTable` is a class
  with three parts. A map of rows answers point reads. A scripted list of
  segments answers segmented queries. Two fixed response functions answer
  writes and batches. The class also logs every request it receives, in order.
  The contracts of the repository's methods are stated over that log.
- `table_entity_proxy.dfy`: the proxy class. The members a concrete proxy type
  overrides become the fields of a `ProxyScheme` value: `BuildPartitionKey`,
  `BuildRowKey`, `BuildETag`, and the mapping from row properties to an entity.
- `cloud_table_repository.dfy`: the repository class, plus the functions that
  specify it:
  - the batch-size policy (`Submissions`);
  - the filter built from a property dictionary (`ConjoinProperties`);
  - the pages one query fetches (`PagesOfOneQuery`);
  - how a version tag is resolved (`ResolvedETag`).
- `extensions.dfy`: `ChunkBy`, and `TrimEnd` with its reference functions
  `TrimAll` and `TrimOnce`.

In two places the code does less than the layer is meant to do, and the
model follows the code:

- **Tag resolution on a missing row.** The intended behaviour is that when the
  row being updated or removed is missing, tag resolution fails with a
  distinguishable not-found error. The code's `GetETag` does not. When the point read finds no
  row (its tag is null), it falls back to the wildcard `"*"`. `ResolvedETag`
  states that fallback. Any failure comes later, from the store's answer to
  the replace or delete.
- **No tag resolution in `UpdateRange`.** The intended behaviour is a usable
  tag before every update. `UpdateRangeAndReturnTableResultsAsync` resolves no
  tag: it sends each proxy's own `BuildETag` value.

## Model

| member | source | states |
|---|---|---|
| Extensions.ChunkBy | src/OkonkwoCore.Netx/Utilities/Extensions.cs:17-24 | every group is non-empty and at most `chunkSize` long, and all are full except the last; empty input gives no groups; input no longer than `chunkSize` gives one group |
| Extensions.ChunkByCount | src/OkonkwoCore.Netx/Utilities/Extensions.cs:17-24 | there are ceil(n / chunkSize) groups |
| Extensions.ChunkByFlattens | src/OkonkwoCore.Netx/Utilities/Extensions.cs:17-24 | concatenating the groups gives back the source, in order |
| Extensions.ChunkByGroupsByIndex | src/OkonkwoCore.Netx/Utilities/Extensions.cs:20-22 | element i is in group i / chunkSize, at position i % chunkSize (the grouping key of the source) |
| Extensions.TrimAll | src/OkonkwoCore.Netx/Utilities/Extensions.cs:53-55 | reference for removing every trailing copy: the result is a prefix of the input and no longer ends with the suffix |
| Extensions.TrimOnce | src/OkonkwoCore.Netx/Utilities/Extensions.cs:55-60 | reference for removing only the outermost copy: the input is the result, or the result plus one suffix; the input comes back unchanged exactly when it does not end with the suffix (or the suffix is empty) |
| Extensions.TrimAllRemovesCopies | src/OkonkwoCore.Netx/Utilities/Extensions.cs:53-55 | the input is what `TrimAll` keeps, followed by `TrimmedCopies` copies of the suffix |
| Extensions.TrimAllUnique | src/OkonkwoCore.Netx/Utilities/Extensions.cs:53-55 | any way of writing the input as a string that does not end with the suffix, followed by k copies of the suffix, has `TrimAll` as that string |
| Extensions.TrimEndGuard | src/OkonkwoCore.Netx/Utilities/Extensions.cs:53 | the loop condition as written (input and suffix non-null, input ends with the suffix): it holds exactly when cutting one copy off the end and putting it back gives the input |
| Extensions.TrimEndPass | src/OkonkwoCore.Netx/Utilities/Extensions.cs:55 | one loop pass as written: the result plus the suffix is the input |
| Extensions.EmptySuffixNeverExits | src/OkonkwoCore.Netx/Utilities/Extensions.cs:53-55 | with an empty suffix the loop guard as written holds for every string, and a pass returns the same string (the loop never exits) |
| Extensions.TrimEnd | src/OkonkwoCore.Netx/Utilities/Extensions.cs:51-64 | a null input or suffix returns the input; `removeAll` gives `TrimAll`; otherwise `TrimOnce`; an empty suffix returns the input |
| TableStore.RetrieveResult | src/OkonkwoCore.Netx/Data/CloudTableRepository.cs:247-248 | a point read returns a dynamic row exactly when the key is stored, with the stored properties and tag; a missing key gives no object and no tag |
| EntityProxy.BuildETag | src/OkonkwoCore.Netx/Data/TableEntityProxy.cs:226-234 | `"*"` (last write wins) unless the proxy type supplies its own tag, null included |
| EntityProxy.FreshProxyEntity | src/OkonkwoCore.Netx/Data/TableEntityProxy.cs:192-206 | on a new proxy, a result yields an entity exactly when it is a dynamic row, and that entity is hydrated from the row's properties |
| EntityProxy.TableEntityProxy.Empty | src/OkonkwoCore.Netx/Data/TableEntityProxy.cs:20-22 | nothing cached, no entity, default timestamp |
| EntityProxy.TableEntityProxy.FromEntity | src/OkonkwoCore.Netx/Data/TableEntityProxy.cs:28-31 | holds the entity; its row has keys built from the entity's id and the `BuildETag` tag |
| EntityProxy.TableEntityProxy.FromId | src/OkonkwoCore.Netx/Data/TableEntityProxy.cs:37-42 | both keys built from the id and cached; the entity is a new one carrying the id |
| EntityProxy.TableEntityProxy.FromKeys | src/OkonkwoCore.Netx/Data/TableEntityProxy.cs:49-54 | the given keys are cached; the entity is a new blank one |
| EntityProxy.NewFromEntity | src/OkonkwoCore.Netx/Data/TableEntityProxy.cs:28-31 | a null entity throws `ArgumentNullException("value")`; otherwise a new proxy whose row is built from the entity |
| EntityProxy.NewFromKeys | src/OkonkwoCore.Netx/Data/TableEntityProxy.cs:49-54 | a null partition key throws first, then a null row key; otherwise a new proxy with both keys set |
| EntityProxy.TableEntityProxy.GetPartitionKey | src/OkonkwoCore.Netx/Data/TableEntityProxy.cs:61-65 | returns the cached key, or builds it from the entity's id; the result is cached, so later reads return the same key |
| EntityProxy.TableEntityProxy.SetPartitionKey | src/OkonkwoCore.Netx/Data/TableEntityProxy.cs:67-70 | a non-null value is what the getter returns next |
| EntityProxy.TableEntityProxy.GetRowKey | src/OkonkwoCore.Netx/Data/TableEntityProxy.cs:78-82 | like `GetPartitionKey`, for the row key |
| EntityProxy.TableEntityProxy.SetRowKey | src/OkonkwoCore.Netx/Data/TableEntityProxy.cs:84-87 | a non-null value is what the getter returns next |
| EntityProxy.TableEntityProxy.GetETag | src/OkonkwoCore.Netx/Data/TableEntityProxy.cs:95-99 | a tag already set (even "") wins; otherwise `BuildETag` is returned and cached |
| EntityProxy.TableEntityProxy.SetETag | src/OkonkwoCore.Netx/Data/TableEntityProxy.cs:101 | the tag later reads return |
| EntityProxy.TableEntityProxy.ReadEntity | src/OkonkwoCore.Netx/Data/TableEntityProxy.cs:116-123 | the entity is replaced by a new one hydrated from the properties |
| EntityProxy.TableEntityProxy.ResolveEntity | src/OkonkwoCore.Netx/Data/TableEntityProxy.cs:143-162 | a row whose partition key is `BuildPartitionKey(null)` has its keys copied in and its entity hydrated; any other row leaves keys and entity alone; the timestamp is always taken; the returned entity is the current one |
| EntityProxy.TableEntityProxy.GetEntityFromTableResult | src/OkonkwoCore.Netx/Data/TableEntityProxy.cs:192-206 | a null result gives null and changes nothing; a dynamic row copies its keys in and hydrates the entity; any other object returns the current entity unchanged |
| Repository.IsBatchCountUnderSupportedOperationsLimit | src/OkonkwoCore.Netx/Data/CloudTableRepository.cs:356-361 | the count is at most 100, which is exactly when chunking by 100 gives at most one list |
| Repository.GetLimitedBatchOperationLists | src/OkonkwoCore.Netx/Data/CloudTableRepository.cs:363-368 | `ChunkBy` with 100: non-empty lists of at most 100 operations that, concatenated, are the batch |
| Repository.Submissions | src/OkonkwoCore.Netx/Data/CloudTableRepository.cs:338-351 | the batch itself when within the limit, else its chunks: there is exactly one submission when the batch has at most 100 operations, and over the limit no submission is empty |
| Repository.SingleSubmissionWithinLimit | src/OkonkwoCore.Netx/Data/CloudTableRepository.cs:338-341 | a batch of at most 100 operations is submitted once, unchanged |
| Repository.SubmissionsPartitionBatch | src/OkonkwoCore.Netx/Data/CloudTableRepository.cs:334-368 | every submission has at most 100 operations, and the submissions, concatenated, are the batch in its order |
| Repository.ChunkedSubmissionsOverLimit | src/OkonkwoCore.Netx/Data/CloudTableRepository.cs:343-351 | over the limit: ceil(n / 100) non-empty submissions, all full except the last |
| Repository.OperationPlacement | src/OkonkwoCore.Netx/Data/CloudTableRepository.cs:343-351 | over the limit, operation i goes out in submission i / 100, at position i % 100 |
| Repository.TwoHundredFiftyOperations | src/OkonkwoCore.Netx/Data/CloudTableRepository.cs:343-351 | 250 operations go out as three submissions: operations 0-99, 100-199 and 200-249 |
| Repository.ResponsesConcatenate | src/OkonkwoCore.Netx/Data/CloudTableRepository.cs:346-353 | the batch results are the per-submission results, concatenated in submission order |
| Repository.ResponsesLength | src/OkonkwoCore.Netx/Data/CloudTableRepository.cs:346-353 | if each submission is answered with one result per operation, there is one result per submitted operation |
| Repository.OneResultPerOperation | src/OkonkwoCore.Netx/Data/CloudTableRepository.cs:334-354 | with such a store, a batch of any size gets back exactly as many results as it had operations |
| Repository.CreateLimitedTableBatchOperation | src/OkonkwoCore.Netx/Data/CloudTableRepository.cs:370-380 | the new batch holds the chunk's operations, in order |
| Repository.BuildBatchOperations | src/OkonkwoCore.Netx/Data/CloudTableRepository.cs:215-220 | succeeds exactly when no entity is null (otherwise `ArgumentNullException("value")`); operation i is built on the row of a proxy made from entity i |
| Repository.EntitiesFromTableResults | src/OkonkwoCore.Netx/Data/CloudTableRepository.cs:47-53 | one entity per result, in order, each what a new proxy extracts from that result |
| Repository.ConjoinPropertiesClauses | src/OkonkwoCore.Netx/Data/CloudTableRepository.cs:117-121 | the clauses of the combined filter are the base filter's, followed by one equality per property, in enumeration order |
| Repository.ConjoinPropertiesHolds | src/OkonkwoCore.Netx/Data/CloudTableRepository.cs:117-121 | a row matches the combined filter exactly when it matches the base filter and every property equality |
| Repository.BuildPropertiesFilter | src/OkonkwoCore.Netx/Data/CloudTableRepository.cs:115-121 | the filter is the partition-key clause ANDed, left to right, with one clause per property in enumeration order; with no properties it is the partition-key clause alone |
| Repository.PropertiesFilterMatches | src/OkonkwoCore.Netx/Data/CloudTableRepository.cs:115-121 | a row matches that filter exactly when its partition key and every listed property have the given values |
| Repository.PagesOfOneQuery | src/OkonkwoCore.Netx/Data/CloudTableRepository.cs:74-81 | the segments fetched are a non-empty prefix of the store's answers; the last has no continuation token and every earlier one has one |
| Repository.QueryFetchesKPages | src/OkonkwoCore.Netx/Data/CloudTableRepository.cs:74-81 | if the k-th answer is the first without a token, the query fetches exactly the first k answers |
| Repository.ResolvedETag | src/OkonkwoCore.Netx/Data/CloudTableRepository.cs:321-330 | a non-empty held tag is used as it is; otherwise the stored row's tag; `"*"` when the row is missing or has no tag; never empty |
| Repository.ETagReads | src/OkonkwoCore.Netx/Data/CloudTableRepository.cs:323-327 | tag resolution reads the row exactly when the held tag is null or empty |
| Repository.CloudTableRepository.constructor | src/OkonkwoCore.Netx/Data/CloudTableRepository.cs:20-30 | binds the table and the proxy factory; the first request is to create the table if it does not exist |
| Repository.CloudTableRepository.GetTableResultByIdAsync | src/OkonkwoCore.Netx/Data/CloudTableRepository.cs:227-237 | a null id throws and sends nothing; otherwise one point read of the keys built from the id |
| Repository.CloudTableRepository.GetTableResultByKeysAsync | src/OkonkwoCore.Netx/Data/CloudTableRepository.cs:239-251 | a null partition key throws first, then a null row key, and nothing is sent; otherwise one point read |
| Repository.CloudTableRepository.GetByIdAsync | src/OkonkwoCore.Netx/Data/CloudTableRepository.cs:86-94 | a null id throws; otherwise one point read, giving an entity exactly when the row exists (a missing row is null, not an error) |
| Repository.CloudTableRepository.GetByKeysAsync | src/OkonkwoCore.Netx/Data/CloudTableRepository.cs:96-107 | the null checks of the key read, then an entity exactly when the row exists |
| Repository.CloudTableRepository.GetAsync | src/OkonkwoCore.Netx/Data/CloudTableRepository.cs:63-84 | a null query throws `ArgumentException("Query is null")`; otherwise segments are fetched until one has no token, each request carrying the previous token, and the entities of all fetched pages are returned in order |
| Repository.CloudTableRepository.GetAllAsync | src/OkonkwoCore.Netx/Data/CloudTableRepository.cs:58-61 | the paged query without a filter |
| Repository.CloudTableRepository.GetByFilterAsync | src/OkonkwoCore.Netx/Data/CloudTableRepository.cs:128-137 | a null filter throws `ArgumentNullException("filter")`; otherwise the paged query with that filter |
| Repository.CloudTableRepository.GetByPropertiesAsync | src/OkonkwoCore.Netx/Data/CloudTableRepository.cs:109-126 | the paged query whose filter is `BuildPartitionKey(null)` for the partition key, ANDed with every property equality |
| Repository.CloudTableRepository.GetETag | src/OkonkwoCore.Netx/Data/CloudTableRepository.cs:321-330 | returns `ResolvedETag` of the proxy's held tag, reading the row only when that tag is null or empty; the proxy's row is unchanged |
| Repository.CloudTableRepository.AddAndReturnTableResultAsync | src/OkonkwoCore.Netx/Data/CloudTableRepository.cs:205-211 | a null entity throws and sends nothing; otherwise one insert of the entity's row |
| Repository.CloudTableRepository.AddAsync | src/OkonkwoCore.Netx/Data/CloudTableRepository.cs:36-41 | the insert, with the entity extracted from its result |
| Repository.CloudTableRepository.UpdateAndReturnTableResultAsync | src/OkonkwoCore.Netx/Data/CloudTableRepository.cs:253-261 | a null entity throws; otherwise the tag is resolved (reading the row only if needed), then one replace that carries the resolved tag |
| Repository.CloudTableRepository.UpdateAsync | src/OkonkwoCore.Netx/Data/CloudTableRepository.cs:139-144 | the tagged replace, with the entity extracted from its result |
| Repository.CloudTableRepository.RemoveAsync | src/OkonkwoCore.Netx/Data/CloudTableRepository.cs:161-168 | a null entity throws; otherwise the tag is resolved, then one delete that carries it |
| Repository.CloudTableRepository.RemoveAndReturnTableResultAsync | src/OkonkwoCore.Netx/Data/CloudTableRepository.cs:284-295 | a null id throws; otherwise a tagged delete of the row addressed by the keys built from the id |
| Repository.CloudTableRepository.RemoveByIdAsync | src/OkonkwoCore.Netx/Data/CloudTableRepository.cs:170-176 | a null id throws; otherwise the same requests as `RemoveAndReturnTableResultAsync` |
| Repository.CloudTableRepository.InsertOrMergeAndReturnTableResultAsync | src/OkonkwoCore.Netx/Data/CloudTableRepository.cs:297-304 | a null entity throws; otherwise one insert-or-merge of the entity's row, with no tag resolution |
| Repository.CloudTableRepository.InsertOrMergeAsync | src/OkonkwoCore.Netx/Data/CloudTableRepository.cs:178-184 | the insert-or-merge, with the entity extracted from its result |
| Repository.CloudTableRepository.ExecuteBatchAsLimitedBatchesAsync | src/OkonkwoCore.Netx/Data/CloudTableRepository.cs:334-354 | sends exactly one batch request per submission, in order, and returns their results concatenated in that order |
| Repository.CloudTableRepository.AddRangeAndReturnTableResultsAsync | src/OkonkwoCore.Netx/Data/CloudTableRepository.cs:213-225 | a null entity throws before anything is sent; otherwise one insert per entity, in order, sent under the batch-size policy |
| Repository.CloudTableRepository.UpdateRangeAndReturnTableResultsAsync | src/OkonkwoCore.Netx/Data/CloudTableRepository.cs:263-275 | the same for replace, with each proxy's own tag and no row read |
| Repository.CloudTableRepository.InsertOrReplaceRangeAndReturnTableResultsAsync | src/OkonkwoCore.Netx/Data/CloudTableRepository.cs:306-318 | the same for insert-or-replace |
| Repository.CloudTableRepository.AddRangeAsync | src/OkonkwoCore.Netx/Data/CloudTableRepository.cs:43-56 | the batched inserts, then one entity per result, in result order |
| Repository.CloudTableRepository.UpdateRangeAsync | src/OkonkwoCore.Netx/Data/CloudTableRepository.cs:146-159 | the batched replaces, then one entity per result, in result order |
| Repository.CloudTableRepository.InsertOrReplaceRangeAsync | src/OkonkwoCore.Netx/Data/CloudTableRepository.cs:186-199 | the batched insert-or-replaces, then one entity per result, in result order |
| Repository.CloudTableRepository.Dispose | src/OkonkwoCore.Netx/Data/CloudTableRepository.cs:386-395 | the table and the proxy factory are dropped |

## Left out

- **The store itself.** The Azure SDK is not modelled. The store is a
  scripted stand-in: point reads come from a fixed map of rows; writes never
  change that map; write and batch answers come from fixed response functions.
  The store's own checks are not modelled: conditional updates, duplicate
  keys, mixed partitions in one batch, an empty batch.
- **Async, cancellation, request options.** Every call is modelled as
  synchronous. Request options, operation contexts and cancellation tokens
  are not modelled.
- **The query resolver.** The SDK calls the proxy's `ResolveEntity` on each
  row it returns; that call is not part of this model. Each scripted segment
  already holds the entities that call produced. `ResolveEntity` itself is
  modelled.
- **Entity mapping.** The reflective `ReadUserObject` / `WriteUserObject`
  mapping, the `ReadValues` / `WriteValues` hooks and `WriteEntity` are not
  modelled. The mapping becomes the abstract `hydrate` function. An entity is
  a value (an id plus a property map), so aliasing between an entity and its
  proxy is not modelled.
- **Filters and data types.** Filter strings are not modelled. A filter is a
  tree of equality and AND nodes, and property values are strings.
- Repository.CloudTableRepository.GetAsync: requires that one of the store's
  scripted answers ends the query. The source's loop would otherwise run
  forever. `GetAllAsync`, `GetByFilterAsync` and `GetByPropertiesAsync` run
  the same loop and carry the same requirement.
- Repository.CloudTableRepository.GetETag: requires that the proxy can produce
  its keys, which holds for every proxy the repository builds. A proxy with
  neither keys nor entity would throw a null-reference exception in the
  source.
- EntityProxy.TableEntityProxy.GetPartitionKey: requires a cached key or an
  entity. Without either the source dereferences a null entity. The same
  applies to `GetRowKey`.
- **Null collections.** A null `entities` sequence or null `properties`
  dictionary (a null-reference exception in the source) is not modelled.
  Sequences are values.
- **Key builders.** `BuildPartitionKey` and `BuildRowKey` are assumed never to
  return null.
- **Constructor inputs.** The constructor receives the table directly. The
  storage factory that looks a table up by name is not part of this model, so
  `Dispose` has no factory field to clear.
- **Proxy factory.** `ITableEntityProxyFactory` has no implementation in the
  repository. The model reduces it to the one proxy type it builds for the
  entity type. It assumes `BuildAsync<T>()` runs the parameterless proxy
  constructor, `BuildAsync(entity)` the entity constructor, and
  `BuildAsync<T>(id)` the id constructor. The "null entity throws
  `ArgumentNullException("value")`" outcome of every single-entity and range
  write rests on that assumption: it is the entity constructor's null check
  (TableEntityProxy.cs:30), not a throw in the repository. The factory's
  failure when no proxy type is registered is not part of this model.
- **Batch limit.** `TableServiceBatchMaximumOperations` is fixed at 100. The
  source lets a subclass override it.
- Extensions.ChunkBy: requires a positive `chunkSize`. The source groups by
  `Index / chunkSize` with C#'s truncating division, so a negative size
  groups by its absolute value, and a size of 0 throws a divide-by-zero
  exception only on a non-empty source (an empty source gives no groups).
  The repository only calls it with 100.
- Extensions.TrimEnd: `removeAll` is always passed explicitly. The source's
  default value `true` is not modelled.
- **`GetTableResultsAsync`.** It only throws "not implemented", so it is not
  modelled.
- **`GetAssemblyPath`.** It reads the file system, so it is not modelled.
- **String comparison.** `EndsWith` is ordinal. The source's `EndsWith` uses
  the current culture.
- **Timestamps.** They are opaque integers.

## Findings

| source | as written | input that shows it | evidently intended | confidence | as-written member | corrected member |
|---|---|---|---|---|---|---|
| src/OkonkwoCore.Netx/Utilities/Extensions.cs:53-60 | the loop runs while the input ends with the suffix and cuts off one suffix per pass; an empty suffix always matches and cutting it off changes nothing | `TrimEnd("abc", "", removeAll: true)` never returns | an empty suffix removes nothing and the input is returned | high (not executed) | Extensions.EmptySuffixNeverExits | Extensions.TrimEnd |
