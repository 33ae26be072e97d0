# Astyanax chunked storage, nullable entity mapping and test-server proxy, in Dafny

This project models three pieces of the Astyanax Cassandra client and proves properties about them.

- **Chunked object storage**, as the chunked-object recipe test drives it.
  - The writer cuts a byte stream into chunks of at most `chunkSize` bytes and stores chunk `i`
    of object `name` under the row key `name$i`. The callback sees each chunk before it is
    stored and can abort the write by throwing. The metadata (size, chunk size, chunk count) is
    stored last, so a failed write of a new name leaves no visible object. A failed re-write of
    an existing name keeps the old metadata over partly overwritten chunk rows.
  - The info reader returns the stored metadata.
  - The reader fetches chunks in batches. Within a batch, fetches complete in an arbitrary
    order. The output is reassembled in index order.
  - The deleter removes every chunk row and then the metadata.
  - The test callback `CallbackThatFails` is a class whose methods update its fields.
- **The entity manager's nullability rules**, for the nullable test entity.
  - The entity becomes one row of named columns. A nested entity's fields become `parent.child`
    columns.
  - A null value of a nullable field writes no column.
  - A null value of a non-nullable field or nested entity rejects the put with
    `IllegalArgumentException("cannot write non-nullable column with null value: <field>")`.
    A nested field is named without its parent.
  - Get reads the row back; delete empties it.
- **The test-server proxy's configuration rules.**
  - The seed host comes from the compiled-in override, else the system property, else
    `localhost:9160`.
  - Remote versus local follows from the seed host, and fixes the port (7102 or 9160) and the
    keyspace replication strategy.
  - The get-or-create caches of keyspace contexts (keyed `cluster.keyspace`) and cluster
    contexts (keyed by the cluster name) build each context once.

Layout:

| file | contents |
|---|---|
| `wrappers.dfy` | `Option` and `Result` |
| `strings.dfy` | decimal rendering of integers; splitting facts for composite keys |
| `chunking.dfy` | chunk arithmetic: `Split`, `ChunkKey`, `PutChunks`, `Assemble` and their lemmas |
| `write_callback.dfy` | the `CallbackThatFails` class |
| `chunked_storage.dfy` | the in-memory backend and the writer, info reader, reader and deleter |
| `chunked_recipe_test.dfy` | the two recipe scenarios, as client methods |
| `entity_mapping.dfy` | the entity datatypes, the column rules, the row store and the `EntityManager` class |
| `entity_nullable_test.dfy` | the six nullable-entity scenarios |
| `test_server_proxy.dfy` | the seed, port and strategy rules, and the proxy class with its caches |

`getOrCreateCluster` caches cluster contexts under the bare cluster name
(`CassandraTestServerProxy.java:89` and `:130`), not under `cluster.keyspace`, and binds every
cluster context to the test keyspace (line 101).

The source fixes only that a null nullable nested entity reads back null
(`DefaultEntityManagerNullableTest.java:177`). How a non-nullable nested entity with no columns
reads back is an assumption of the model: it comes back as an empty, non-null object, as the
authors' comment at line 178 says. The assertions that would check this (lines 179-181) are
commented out in the source.

`GetKey` is ambiguous when a cluster name contains a '.': `("a.b", "c")` and `("a", "b.c")`
share a cache key (`TestServerProxy.KeyAmbiguousWithDots`). The key is injective for
dot-free cluster names (`TestServerProxy.KeyInjective`).

## Model

| member | source | states |
|---|---|---|
| `Strings.NatToString` | astyanax-recipes/src/test/java/com/netflix/astyanax/recipes/ChunkedObjectRecipeTest.java:92 | The decimal index in a chunk key is non-empty, all digits, one digit exactly for values below 10, and has no leading zero. |
| `Strings.NatToStringInjective` | astyanax-recipes/src/test/java/com/netflix/astyanax/recipes/ChunkedObjectRecipeTest.java:92 | Two indices with the same decimal rendering are equal. |
| `Chunking.ChunkKey` | astyanax-recipes/src/test/java/com/netflix/astyanax/recipes/ChunkedObjectRecipeTest.java:92 | The row key of a chunk: the object name, a '$', and the index in decimal. It has no contract of its own; `Chunking.ChunkKeyInjective` and `Chunking.ChunkKeysDisjoint` state its properties. |
| `Chunking.Split` | astyanax-recipes/src/test/java/com/netflix/astyanax/recipes/ChunkedObjectRecipeTest.java:68-72 | The chunks the writer cuts, `chunkSize` bytes at a time. It has no contract of its own; `Chunking.SplitConcat`, `Chunking.SplitSizes` and `Chunking.SplitCount` state its properties. |
| `Chunking.ChunkKeyInjective` | astyanax-recipes/src/test/java/com/netflix/astyanax/recipes/ChunkedObjectRecipeTest.java:92 | `name$i` keys are equal exactly when both the object name and the index are equal, so no chunk row is shared. |
| `Chunking.ChunkKeys` | astyanax-recipes/src/test/java/com/netflix/astyanax/recipes/ChunkedObjectRecipeTest.java:91-92 | The chunk keys of an object with `count` chunks are exactly `name$i` for `0 <= i < count`. |
| `Chunking.ChunkKeysDisjoint` | astyanax-recipes/src/test/java/com/netflix/astyanax/recipes/ChunkedObjectRecipeTest.java:89-94 | Another object's chunk key is never among this object's chunk keys, so deleting one object's chunks leaves every other object's rows alone. |
| `Chunking.SplitConcat` | astyanax-recipes/src/test/java/com/netflix/astyanax/recipes/ChunkedObjectRecipeTest.java:68-72 | The chunks the writer cuts, concatenated in order, are the input stream. |
| `Chunking.SplitSizes` | astyanax-recipes/src/test/java/com/netflix/astyanax/recipes/ChunkedObjectRecipeTest.java:70-72 | Every chunk has between 1 and `chunkSize` bytes, and every chunk but the last has exactly `chunkSize`. |
| `Chunking.SplitCount` | astyanax-recipes/src/test/java/com/netflix/astyanax/recipes/ChunkedObjectRecipeTest.java:74-76 | The number of chunks is ceil(size / chunkSize), which is 27 for 2700 bytes in chunks of 100. |
| `Chunking.PutChunksContents` | astyanax-recipes/src/test/java/com/netflix/astyanax/recipes/ChunkedObjectRecipeTest.java:70-72 | After chunks `0..n-1` are put: the rows' keys are the old keys plus those chunk keys, chunk `i` holds `chunks[i]`, and every other row is unchanged. |
| `Chunking.Assemble` | astyanax-recipes/src/test/java/com/netflix/astyanax/recipes/ChunkedObjectRecipeTest.java:80-87 | An object can be reassembled from its rows exactly when every chunk row `name$i` with `i < count` is present. |
| `Chunking.AssembleStored` | astyanax-recipes/src/test/java/com/netflix/astyanax/recipes/ChunkedObjectRecipeTest.java:80-87 | Rows holding `chunks[i]` under each chunk key reassemble to the concatenation of the chunks. |
| `Chunking.WriteThenAssemble` | astyanax-recipes/src/test/java/com/netflix/astyanax/recipes/ChunkedObjectRecipeTest.java:68-87 | Round trip: whatever the rows held before, after all chunks of `data` are put, the object's rows reassemble to exactly `data`. |
| `WriteCallback.CallbackThatFails.constructor` | astyanax-recipes/src/test/java/com/netflix/astyanax/recipes/ChunkedObjectRecipeTest.java:131-138 | A new callback has `success` and `chunkException` false, `failedChunk` = -1, and remembers the chunk to fail on. |
| `WriteCallback.CallbackThatFails.OnSuccess` | astyanax-recipes/src/test/java/com/netflix/astyanax/recipes/ChunkedObjectRecipeTest.java:140-143 | Sets `success` and changes no other field. |
| `WriteCallback.CallbackThatFails.OnChunkException` | astyanax-recipes/src/test/java/com/netflix/astyanax/recipes/ChunkedObjectRecipeTest.java:149-153 | Sets `chunkException`, records the reported chunk in `failedChunk`, and leaves `success` alone. |
| `WriteCallback.CallbackThatFails.OnChunk` | astyanax-recipes/src/test/java/com/netflix/astyanax/recipes/ChunkedObjectRecipeTest.java:155-164 | Raises exactly when the chunk is the chosen one, with the message "Failing for chunk: " plus that number, and does nothing for any other chunk. |
| `WriteCallback.CallbackThatFails.OnFailure` | astyanax-recipes/src/test/java/com/netflix/astyanax/recipes/ChunkedObjectRecipeTest.java:145-147 | Ignores the failure: no field changes. |
| `ChunkedStorage.ReadInfo` | astyanax-recipes/src/test/java/com/netflix/astyanax/recipes/ChunkedObjectRecipeTest.java:74-78 | Returns the stored metadata exactly when some is stored for the name; otherwise NotFound. |
| `ChunkedStorage.WriteChunks` | astyanax-recipes/src/test/java/com/netflix/astyanax/recipes/ChunkedObjectRecipeTest.java:68-72 | The chunk loop stops exactly when the callback raises on one of the chunks. It has stored exactly the chunks before that one (all of them otherwise), stores no metadata, and reports the failing chunk to `onChunkException`. |
| `ChunkedStorage.Write` | astyanax-recipes/src/test/java/com/netflix/astyanax/recipes/ChunkedObjectRecipeTest.java:112-125 | The write succeeds exactly when the callback raises on none of the chunks. On success: every chunk is stored, the metadata (size, chunk size, ceil count) is committed, the info reader sees it, and `onSuccess` is called. On failure: the failing chunk is reported, `onSuccess` is not called, no metadata is stored, and what the info reader sees is unchanged. |
| `ChunkedStorage.Read` | astyanax-recipes/src/test/java/com/netflix/astyanax/recipes/ChunkedObjectRecipeTest.java:78-87 | Whatever the fetch order within each batch: NotFound exactly when no metadata is stored. Success exactly when every chunk row is present, and then the output is the chunks in index order. A ChunkUnavailable failure names a chunk whose row is missing. |
| `ChunkedStorage.Delete` | astyanax-recipes/src/test/java/com/netflix/astyanax/recipes/ChunkedObjectRecipeTest.java:89-94 | An absent object gives NotFound and changes nothing. Otherwise every chunk row `name$i` with `i < chunkCount` is removed, then the metadata; nothing else changes. |
| `ChunkedObjectRecipeTest.Alphabet` | astyanax-recipes/src/test/java/com/netflix/astyanax/recipes/ChunkedObjectRecipeTest.java:63 | The appended line is 27 bytes long. |
| `ChunkedObjectRecipeTest.BuildInput` | astyanax-recipes/src/test/java/com/netflix/astyanax/recipes/ChunkedObjectRecipeTest.java:61-66 | The input loop yields 100 copies of the alphabet line: 2700 bytes. |
| `ChunkedObjectRecipeTest.WriteReadDelete` | astyanax-recipes/src/test/java/com/netflix/astyanax/recipes/ChunkedObjectRecipeTest.java:68-94 | For any input, chunk size and batch size: the metadata describes the input, the output equals the input, and after the delete no chunk row is left. |
| `ChunkedObjectRecipeTest.ChunkRowsEmpty` | astyanax-recipes/src/test/java/com/netflix/astyanax/recipes/ChunkedObjectRecipeTest.java:91-94 | The check loop reports true exactly when none of the rows `name$0 .. name$(count-1)` exists. |
| `ChunkedObjectRecipeTest.TestChunkedRecipe` | astyanax-recipes/src/test/java/com/netflix/astyanax/recipes/ChunkedObjectRecipeTest.java:57-96 | The 2700-byte input comes back unchanged, the metadata says 2700 bytes in 27 chunks of 100, and no chunk row survives the delete. |
| `ChunkedObjectRecipeTest.FailedRewriteMixesVersions` | astyanax-recipes/src/test/java/com/netflix/astyanax/recipes/ChunkedObjectRecipeTest.java:112-125 | Writing [1, 1] and then re-writing it as [2, 2] with a callback that raises on chunk 1: the re-write fails, and a read returns metadata (2, 1, 2) with the bytes [2, 1], which is neither input. |
| `ChunkedObjectRecipeTest.TestChunkFailure` | astyanax-recipes/src/test/java/com/netflix/astyanax/recipes/ChunkedObjectRecipeTest.java:99-127 | With a fault on chunk 26: the write fails, `success` stays false, `chunkException` is set, `failedChunk` equals `chunkNumToFailOn` (26), and the object is not found. |
| `EntityMapping.EntityColumns` | astyanax-entity-mapper/src/test/java/com/netflix/astyanax/entitystore/DefaultEntityManagerNullableTest.java:98 | The row `put` writes, or the mapping error. It has no contract of its own; `EntityMapping.ColumnLayout`, `EntityMapping.ColumnCount` and `EntityMapping.RejectionRule` state its properties. |
| `EntityMapping.ColumnLayout` | astyanax-entity-mapper/src/test/java/com/netflix/astyanax/entitystore/DefaultEntityManagerNullableTest.java:154-173 | In an accepted entity's row, each non-null value sits under its field name (`parent.child` for nested fields), a null value has no column, and there is no other column. |
| `EntityMapping.ColumnCount` | astyanax-entity-mapper/src/test/java/com/netflix/astyanax/entitystore/DefaultEntityManagerNullableTest.java:102-105 | An accepted entity's row has one column per non-null value. |
| `EntityMapping.RejectionRule` | astyanax-entity-mapper/src/test/java/com/netflix/astyanax/entitystore/DefaultEntityManagerNullableTest.java:126-143 | Put rejects exactly the entities with a null non-nullable field (top-level, a nested entity, or a field of a present nested entity). The message is the fixed prefix plus the name of a field that breaks the rule. |
| `EntityMapping.RejectedPutWritesNothing` | astyanax-entity-mapper/src/test/java/com/netflix/astyanax/entitystore/DefaultEntityManagerNullableTest.java:246-254 | A put that breaks the rule fails with a PersistenceException whose cause is the IllegalArgumentException, and no row is changed. |
| `EntityMapping.DeleteRow` | astyanax-entity-mapper/src/test/java/com/netflix/astyanax/entitystore/DefaultEntityManagerNullableTest.java:116-122 | After delete the row has no columns, and every other row is unchanged. |
| `EntityMapping.GetAfterPut` | astyanax-entity-mapper/src/test/java/com/netflix/astyanax/entitystore/DefaultEntityManagerNullableTest.java:175-181 | Get after put into an empty row returns the entity, except that a present nullable nested entity with only null fields comes back null; a null nullable nested entity comes back null. |
| `EntityMapping.NormalizedIdentity` | astyanax-entity-mapper/src/test/java/com/netflix/astyanax/entitystore/DefaultEntityManagerNullableTest.java:176-177 | Get-after-put loses nothing exactly when every present nullable nested entity has a non-null field. |
| `EntityMapping.GetAfterPutEqual` | astyanax-entity-mapper/src/test/java/com/netflix/astyanax/entitystore/DefaultEntityManagerNullableTest.java:112-114 | Get after put returns an equal entity when no nullable nested entity is empty. |
| `EntityMapping.EntityManager.Put` | astyanax-entity-mapper/src/test/java/com/netflix/astyanax/entitystore/DefaultEntityManagerNullableTest.java:98 | Put succeeds exactly when the entity is accepted, and then adds its columns to its row. Otherwise it raises the mapping error and changes no row. |
| `EntityMapping.EntityManager.Get` | astyanax-entity-mapper/src/test/java/com/netflix/astyanax/entitystore/DefaultEntityManagerNullableTest.java:112 | Get returns null for a row without columns, otherwise the entity read from the row, with the requested id. |
| `EntityMapping.EntityManager.Delete` | astyanax-entity-mapper/src/test/java/com/netflix/astyanax/entitystore/DefaultEntityManagerNullableTest.java:116 | Delete empties the entity's row. |
| `EntityManagerNullableTest.CreateNullableEntity` | astyanax-entity-mapper/src/test/java/com/netflix/astyanax/entitystore/DefaultEntityManagerNullableTest.java:60-84 | The populated test entity breaks no nullability rule, has no empty nested entity, and has 6 non-null values. |
| `EntityManagerNullableTest.TestNullableColumn` | astyanax-entity-mapper/src/test/java/com/netflix/astyanax/entitystore/DefaultEntityManagerNullableTest.java:87-123 | With `nullable` null: 5 columns, none named `nullable`; `notnullable` holds its value; get returns an equal entity whose `nullable` is null; delete leaves 0 columns. |
| `EntityManagerNullableTest.TestNullableNestedColumn` | astyanax-entity-mapper/src/test/java/com/netflix/astyanax/entitystore/DefaultEntityManagerNullableTest.java:146-190 | With the nullable all-optional nested entity null and the other one's field null: 4 columns, neither `*AllOptionalNestedEntity.nullable` present, the other four values in place. Get returns null for the nullable nested entity (line 177); delete leaves 0 columns. Beyond what the test asserts: get returns the non-nullable all-optional nested entity as a non-null empty object, and an equal entity overall (the disabled assertions of lines 179-181). |
| `EntityManagerNullableTest.PutRejected` | astyanax-entity-mapper/src/test/java/com/netflix/astyanax/entitystore/DefaultEntityManagerNullableTest.java:133-141 | A put fails exactly when the entity breaks the rule; then the root cause is the mapping error and the row stays empty. |
| `EntityManagerNullableTest.TestExpectNullColumnException` | astyanax-entity-mapper/src/test/java/com/netflix/astyanax/entitystore/DefaultEntityManagerNullableTest.java:126-143 | A null `notnullable` fails with "cannot write non-nullable column with null value: notnullable". |
| `EntityManagerNullableTest.TestExpectNullColumnExceptionNotnullableAllOptionalNestedEntity` | astyanax-entity-mapper/src/test/java/com/netflix/astyanax/entitystore/DefaultEntityManagerNullableTest.java:193-212 | A null non-nullable all-optional nested entity fails with the message naming `notnullableAllOptionalNestedEntity`. |
| `EntityManagerNullableTest.TestExpectNullColumnExceptionNotnullableAllMandatoryNestedEntity` | astyanax-entity-mapper/src/test/java/com/netflix/astyanax/entitystore/DefaultEntityManagerNullableTest.java:215-234 | A null non-nullable all-mandatory nested entity fails with the message naming `notnullableAllMandatoryNestedEntity`. |
| `EntityManagerNullableTest.TestExpectNestedNullColumnExceptionNullableAllMandatoryNestedEntityNullChild` | astyanax-entity-mapper/src/test/java/com/netflix/astyanax/entitystore/DefaultEntityManagerNullableTest.java:237-256 | A null field inside a present nullable nested entity still fails, and the message names the child without its parent: `notnullable`. |
| `TestServerProxy.SeedHost` | astyanax-cassandra/src/main/java/com/netflix/astyanax/util/CassandraTestServerProxy.java:250-268 | The seed host is never empty. It is the override when that is non-null and non-empty, else the system property when that is non-null and non-empty, else `localhost:9160`. |
| `TestServerProxy.UseRemoteCassandra` | astyanax-cassandra/src/main/java/com/netflix/astyanax/util/CassandraTestServerProxy.java:270-273 | Remote exactly when the chosen source (override first, then property) is configured to something other than `localhost:9160`. |
| `TestServerProxy.SeedPort` | astyanax-cassandra/src/main/java/com/netflix/astyanax/util/CassandraTestServerProxy.java:275-277 | The port is 7102 exactly when remote, and 9160 exactly when local. |
| `TestServerProxy.ShippedConfiguration` | astyanax-cassandra/src/main/java/com/netflix/astyanax/util/CassandraTestServerProxy.java:28-32 | With the shipped null override, the system property alone decides; without it the proxy is local on port 9160. |
| `TestServerProxy.GetKey` | astyanax-cassandra/src/main/java/com/netflix/astyanax/util/CassandraTestServerProxy.java:246-248 | The key is the cluster name, a '.', then the keyspace name. `TestServerProxy.KeyInjective` and `TestServerProxy.KeyAmbiguousWithDots` say when it identifies the pair. |
| `TestServerProxy.KeyInjective` | astyanax-cassandra/src/main/java/com/netflix/astyanax/util/CassandraTestServerProxy.java:246-248 | For cluster names without a '.', equal cache keys mean the same cluster and the same keyspace. |
| `TestServerProxy.KeyAmbiguousWithDots` | astyanax-cassandra/src/main/java/com/netflix/astyanax/util/CassandraTestServerProxy.java:246-248 | With a '.' in a cluster name, two different (cluster, keyspace) pairs share a key. |
| `TestServerProxy.KeyspaceStrategy` | astyanax-cassandra/src/main/java/com/netflix/astyanax/util/CassandraTestServerProxy.java:216-234 | Remote: NetworkTopologyStrategy with the data centres `us-east` and `eu-west`. Local: SimpleStrategy with `replication_factor`. Each option is "3" when remote and "1" when local. |
| `TestServerProxy.CassandraTestServerProxy.constructor` | astyanax-cassandra/src/main/java/com/netflix/astyanax/util/CassandraTestServerProxy.java:41-44 | Both context caches start empty. Nothing is built or started, and no schema change has been made. |
| `TestServerProxy.CassandraTestServerProxy.BuildContext` | astyanax-cassandra/src/main/java/com/netflix/astyanax/util/CassandraTestServerProxy.java:152-183 | Building a context yields a fresh context whose host supplier hands out the seed host and the seed port; nothing else changes. |
| `TestServerProxy.CassandraTestServerProxy.GetOrCreateCluster` | astyanax-cassandra/src/main/java/com/netflix/astyanax/util/CassandraTestServerProxy.java:87-137 | A cached cluster gets its cached client back, and nothing is built. Otherwise exactly one new context (bound to the test keyspace, with an id no cached context has) is built and cached under the cluster name. Either way the result is what the cache now holds. |
| `TestServerProxy.CassandraTestServerProxy.GetOrCreateDefaultCluster` | astyanax-cassandra/src/main/java/com/netflix/astyanax/util/CassandraTestServerProxy.java:83-85 | For the `cass_sandbox` cluster: a cached client comes back and nothing is built. Otherwise exactly one new context is built, with an id no cached context has, bound to the test keyspace and cached under `cass_sandbox`. No other cache and no schema changes. |
| `TestServerProxy.CassandraTestServerProxy.CreateKeyspace` | astyanax-cassandra/src/main/java/com/netflix/astyanax/util/CassandraTestServerProxy.java:208-214 | Creates the keyspace with the strategy the remote/local choice calls for; a refused creation is passed on. |
| `TestServerProxy.CassandraTestServerProxy.DropAndRecreateKeyspace` | astyanax-cassandra/src/main/java/com/netflix/astyanax/util/CassandraTestServerProxy.java:197-206 | A failed drop is swallowed and creation still happens. The outcome is that of the creation. |
| `TestServerProxy.CassandraTestServerProxy.GetOrCreateKeyspace` | astyanax-cassandra/src/main/java/com/netflix/astyanax/util/CassandraTestServerProxy.java:139-195 | A cached `cluster.keyspace` gets its cached client back: nothing is built, the schema is untouched. Otherwise exactly one new context is built, with an id no cached context has, and cached before the keyspace is dropped and recreated; that happens when asked and `RecreateKeyspaceOverride` is set. A failed creation is passed on and the context stays cached. |
| `TestServerProxy.CassandraTestServerProxy.GetOrCreateDefaultKeyspace` | astyanax-cassandra/src/main/java/com/netflix/astyanax/util/CassandraTestServerProxy.java:79-81 | For `cass_sandbox.astyanaxunittests`, always asking for recreation. A cached client comes back, with nothing built and the schema untouched. Otherwise exactly one new context is built (with an id no cached context has) and cached. The keyspace is then dropped, a failed drop ignored, and recreated. The call fails exactly when the creation fails, and the context stays cached. |
| `TestServerProxy.CassandraTestServerProxy.StartCassServer` | astyanax-cassandra/src/main/java/com/netflix/astyanax/util/CassandraTestServerProxy.java:236-244 | Does nothing when remote, and starts the embedded server (a singleton) when local. |
| `TestServerProxy.SameKeyspaceTwice` | astyanax-cassandra/src/main/java/com/netflix/astyanax/util/CassandraTestServerProxy.java:142-150 | A second request for the same keyspace returns the first client, builds nothing, and recreates nothing. |

## Left out

- Cassandra itself is not modelled: queries, column families, the connection pool, and `CassandraChunkedStorageProvider`. The backend is an in-memory map of chunk rows plus a separate map of metadata; the real provider's row layout for metadata is not part of this model.
- The chunked-storage engine (`ChunkedStorage`, the object writer, reader, deleter and info reader) is not part of this model. The recipe test fixes only the round trip, the metadata it reads back, and what the failing callback records. The rest of the writer's behaviour is an assumption of the model. `onChunk` is called before the chunk is stored. Stored chunks are not rolled back on a fault. So a failed re-write of an existing object keeps its old metadata over chunk rows of which the first ones hold the new data; a later read returns neither version (`ChunkedObjectRecipeTest.FailedRewriteMixesVersions`). Metadata is stored last, and `onSuccess` is called after it. On a chunk fault, `onFailure` is called once, after `onChunkException`; the test's callback ignores it.
- ChunkedStorage.Write and ChunkedStorage.WriteChunks take only the test's `CallbackThatFails`, or null for the default callback. Their contracts therefore cover a callback that raises on one fixed chunk index, not an arbitrary write callback.
- Metadata: only the object size, chunk size and chunk count. Time-to-live, the object name and per-chunk attributes are left out.
- Reader concurrency (`withConcurrencyLevel(3)`): only the arbitrary completion order within a batch is modelled, not threads. Backend read failures other than a missing chunk row cannot happen in the in-memory backend.
- The string-to-bytes conversion of the test input and output (`getBytes`, `toString`): the model compares bytes directly.
- The `Thread.sleep` in `onChunk`: timing only.
- A null callback passed to `ChunkedStorage.Write` stands for the writer's default callback, which does nothing.
- The entity manager's reflection and annotation processing: the model is fixed to the test entity and its two nested entity types, with string fields. `DefaultEntityManager`, its entity mapper and `NullableEntity` are not part of this model. The test fixes the column counts and values, the get results it checks, the emptied row after delete, and the exception messages. The rest is an assumption of the model:
  - Put adds or overwrites columns in the row and never removes one, as a Cassandra write does (`EntityMapping.PutRow`, `EntityMapping.EntityManager.Put`).
  - A rejected put writes nothing; the `expect*` tests inspect only the exception (`EntityMapping.RejectedPutWritesNothing`, `EntityMapping.EntityManager.Put`, `EntityManagerNullableTest.PutRejected`).
  - Get on a row without columns returns null (`EntityMapping.GetRow`, `EntityMapping.EntityManager.Get`).
  - The fields are checked in the order in which `createNullableEntity` sets them (lines 63-81), which decides the message when several fields break the rule (`EntityMapping.EntityColumns`).
- The four `expect*Exception` tests only inspect an exception if one is thrown; none fails when `put` succeeds. The model treats rejection as the outcome, as the test names state.
- EntityManagerNullableTest.TestNullableNestedColumn and EntityMapping.ReadAllOptional: two read-back facts are the model's assumption, not something the test asserts. They are that a non-nullable nested entity with no columns reads back as an empty, non-null object, and that get returns an equal entity overall. The assertions that would check them are commented out in the source.
- EntityMapping.RejectionRule: states that the message names some field breaking the rule, not which one; `EntityColumns` checks the fields in the order `createNullableEntity` sets them and reports the first.
- CassandraTestServerProxy's shutdown hook, the `getInstance` singleton, the `synchronized` double-checked locking (the model is sequential), the `AstyanaxContext.Builder` and connection-pool configuration, the type factory argument, and console output. Building and starting a context is one opaque step that yields a fresh context.
- The system property is a constructor parameter of the proxy. Whether the server accepts a drop or a create is a parameter of the calls that make them.
- `SingletonEmbeddedCassandra` is a flag recording that the embedded server was started.
