/**
 * The storage account every pipeline step stages its work in, modelled on
 * values: a blob store keyed by (container, blob name), one message sequence
 * per queue, and tables of entities keyed by (PartitionKey, RowKey). Failures
 * of the cloud service are not computed by the model; they are given up front
 * as `Faults` (which blob uploads, queue messages, tables and entity keys the
 * service rejects).
 */
module Storage {
  import opened Values

  // ---------------------------------------------------------------------
  // Connection string

  const DevelopmentStorage := "UseDevelopmentStorage=true"

  /** The fixed connection string of the local storage emulator. */
  const EmulatorConnectionString :=
    "DefaultEndpointsProtocol=http;AccountName=devstoreaccount1;"
    + "AccountKey=Eby8vdM02xNOcqFlqUwJPLlmEtlCDXJ1OUzFT50uSRZ6IFsuFq2UVErCz4I6tq/K1SZFPTOtr/KBHBeksoGMGw==;"
    + "BlobEndpoint=http://127.0.0.1:10000/devstoreaccount1;"
    + "QueueEndpoint=http://127.0.0.1:10001/devstoreaccount1;"

  /** The connection string the service connects with, given the configured one. */
  function ConnectionStringFor(configured: string): (r: string)
    ensures configured == DevelopmentStorage ==> r == EmulatorConnectionString
    ensures configured != DevelopmentStorage ==> r == configured
  {
    if configured == DevelopmentStorage then EmulatorConnectionString else configured
  }

  // ---------------------------------------------------------------------
  // Payloads

  type BlobKey = (string, string)

  /** What a blob or a queue message holds: a JSON text (`json.dumps` of a document) or a value sent as is. */
  datatype Stored = JsonText(doc: Json) | Verbatim(value: Json)

  /** Blob data: dicts and lists are serialised to JSON, strings are uploaded unchanged. */
  function BlobPayload(data: Json): (p: Stored)
    ensures p.JsonText? <==> data.JObj? || data.JList?
    ensures p == JsonText(data) || p == Verbatim(data)
  {
    if data.JObj? || data.JList? then JsonText(data) else Verbatim(data)
  }

  /** Queue messages: only dicts are serialised to JSON. */
  function MessagePayload(message: Json): (p: Stored)
    ensures p.JsonText? <==> message.JObj?
    ensures p == JsonText(message) || p == Verbatim(message)
  {
    if message.JObj? then JsonText(message) else Verbatim(message)
  }

  // ---------------------------------------------------------------------
  // Entities

  type EntityKey = (Json, Json)
  type Entity = Record
  type EntityTable = map<EntityKey, Entity>
  type Tables = map<string, EntityTable>
  type Queues = map<string, seq<Stored>>

  predicate HasKeys(e: Entity) { "PartitionKey" in e && "RowKey" in e }

  function KeyOf(e: Entity): EntityKey
    requires HasKeys(e)
  {
    (e["PartitionKey"], e["RowKey"])
  }

  /** Every stored entity carries the key it is stored under. */
  predicate WellKeyed(t: EntityTable)
  {
    forall k | k in t :: HasKeys(t[k]) && KeyOf(t[k]) == k
  }

  predicate TablesWellKeyed(ts: Tables)
  {
    forall name | name in ts :: WellKeyed(ts[name])
  }

  /** `es` lists the entities of `t`, each exactly once. */
  predicate Lists(es: seq<Entity>, t: EntityTable)
  {
    && (forall i | 0 <= i < |es| :: HasKeys(es[i]) && KeyOf(es[i]) in t && t[KeyOf(es[i])] == es[i])
    && (forall i, j | 0 <= i < j < |es| :: es[i] != es[j])
    && (forall k | k in t :: t[k] in es)
  }

  datatype Faults = Faults(
    blobs: set<BlobKey>,                 // uploads the blob service rejects
    messages: set<(string, Stored)>,     // (queue, message) sends the queue service rejects
    tables: set<string>,                 // tables on which every operation fails
    entities: set<EntityKey>)            // entity keys whose writes and deletes fail

  // ---------------------------------------------------------------------
  // One operation each, on values

  datatype BlobRun = BlobRun(blobs: map<BlobKey, Stored>, outcome: Outcome)
  datatype QueueRun = QueueRun(queues: Queues, outcome: Outcome)
  datatype TableRun = TableRun(tables: Tables, outcome: Outcome)

  /** `upload_blob_data`: argument check, serialisation, then the upload itself. */
  function PutBlob(blobs: map<BlobKey, Stored>, rejected: set<BlobKey>, container: string, name: string,
                   data: Json, overwrite: bool): (r: BlobRun)
    ensures container == "" || name == "" ==> r == BlobRun(blobs, Raised(ValueError))
    ensures r.outcome == Completed <==>
              container != "" && name != "" && (container, name) !in rejected
              && (overwrite || (container, name) !in blobs)
    ensures r.outcome == Completed ==> r.blobs == blobs[(container, name) := BlobPayload(data)]
    ensures r.outcome != Completed ==> r.blobs == blobs
    ensures overwrite ==> r.outcome != Raised(ResourceExistsError)
  {
    if container == "" || name == "" then BlobRun(blobs, Raised(ValueError))
    else if (container, name) in rejected then BlobRun(blobs, Raised(ServiceError))
    else if !overwrite && (container, name) in blobs then BlobRun(blobs, Raised(ResourceExistsError))
    else BlobRun(blobs[(container, name) := BlobPayload(data)], Completed)
  }

  /** The messages waiting on a queue (a queue that does not exist yet is empty). */
  function Messages(queues: Queues, name: string): seq<Stored>
  {
    if name in queues then queues[name] else []
  }

  /** `upload_queue_message`: argument check, serialisation, then the send itself. */
  function SendMessage(queues: Queues, rejected: set<(string, Stored)>, queueName: string,
                       message: Json): (r: QueueRun)
    ensures queueName == "" || !Truthy(message) ==> r == QueueRun(queues, Raised(ValueError))
    ensures r.outcome == Completed <==>
              queueName != "" && Truthy(message) && (queueName, MessagePayload(message)) !in rejected
    ensures r.outcome == Completed ==>
              r.queues == queues[queueName := Messages(queues, queueName) + [MessagePayload(message)]]
    ensures r.outcome != Completed ==> r.queues == queues
  {
    if queueName == "" || !Truthy(message) then QueueRun(queues, Raised(ValueError))
    else if (queueName, MessagePayload(message)) in rejected then QueueRun(queues, Raised(ServiceError))
    else QueueRun(queues[queueName := Messages(queues, queueName) + [MessagePayload(message)]], Completed)
  }

  function TableOf(tables: Tables, name: string): EntityTable
  {
    if name in tables then tables[name] else map[]
  }

  /** `upsert_entity`: argument checks, then a REPLACE of the entity under its key (creating the table). */
  function UpsertEntityRun(tables: Tables, faults: Faults, tableName: string, entity: Entity): (r: TableRun)
    ensures tableName == "" || !HasKeys(entity) ==> r == TableRun(tables, Raised(ValueError))
    ensures r.outcome == Completed <==>
              tableName != "" && HasKeys(entity) && tableName !in faults.tables && KeyOf(entity) !in faults.entities
    ensures r.outcome == Completed ==>
              && r.tables.Keys == tables.Keys + {tableName}
              && r.tables[tableName] == TableOf(tables, tableName)[KeyOf(entity) := entity]
              && forall other | other in tables && other != tableName :: r.tables[other] == tables[other]
    ensures r.outcome != Completed ==> r.tables == tables
    ensures TablesWellKeyed(tables) ==> TablesWellKeyed(r.tables)
  {
    if tableName == "" || !HasKeys(entity) then TableRun(tables, Raised(ValueError))
    else if tableName in faults.tables || KeyOf(entity) in faults.entities then TableRun(tables, Raised(ServiceError))
    else TableRun(tables[tableName := TableOf(tables, tableName)[KeyOf(entity) := entity]], Completed)
  }

  /** `delete_entity`: argument checks; an entity or table that is not there is not an error. */
  function DeleteEntityRun(tables: Tables, faults: Faults, tableName: string, pk: string, rk: string): (r: TableRun)
    ensures tableName == "" || pk == "" || rk == "" ==> r == TableRun(tables, Raised(ValueError))
    ensures (tableName != "" && pk != "" && rk != "" && tableName !in faults.tables
             && (JStr(pk), JStr(rk)) !in faults.entities) ==> r.outcome == Completed
    ensures tableName !in tables || (JStr(pk), JStr(rk)) !in tables[tableName] ==> r.tables == tables
    ensures r.outcome == Completed && tableName in tables && (JStr(pk), JStr(rk)) in tables[tableName] ==>
              r.tables == tables[tableName := tables[tableName] - {(JStr(pk), JStr(rk))}]
    ensures r.outcome != Completed ==> r.tables == tables
    ensures TablesWellKeyed(tables) ==> TablesWellKeyed(r.tables)
  {
    if tableName == "" || pk == "" || rk == "" then TableRun(tables, Raised(ValueError))
    else if tableName in faults.tables || (JStr(pk), JStr(rk)) in faults.entities then TableRun(tables, Raised(ServiceError))
    else if tableName !in tables || (JStr(pk), JStr(rk)) !in tables[tableName] then TableRun(tables, Completed)
    else TableRun(tables[tableName := tables[tableName] - {(JStr(pk), JStr(rk))}], Completed)
  }

  /** Uploads with overwrite are idempotent: the second identical upload changes nothing. */
  lemma PutBlobIdempotent(blobs: map<BlobKey, Stored>, rejected: set<BlobKey>, container: string, name: string, data: Json)
    ensures var first := PutBlob(blobs, rejected, container, name, data, true);
            first.outcome == Completed ==>
              PutBlob(first.blobs, rejected, container, name, data, true) == first
  {
    var first := PutBlob(blobs, rejected, container, name, data, true);
    if first.outcome == Completed {
      assert first.blobs[(container, name) := BlobPayload(data)] == first.blobs;
    }
  }

  /** A queue is not a set: sending the same message twice leaves two copies, in order. */
  lemma SendMessageTwiceQueuesTwo(queues: Queues, rejected: set<(string, Stored)>, queueName: string, message: Json)
    requires queueName != "" && Truthy(message) && (queueName, MessagePayload(message)) !in rejected
    ensures var once := SendMessage(queues, rejected, queueName, message).queues;
            Messages(SendMessage(once, rejected, queueName, message).queues, queueName)
            == Messages(queues, queueName) + [MessagePayload(message), MessagePayload(message)]
  {
    var once := SendMessage(queues, rejected, queueName, message).queues;
    assert Messages(once, queueName) == Messages(queues, queueName) + [MessagePayload(message)];
  }

  /** REPLACE mode: the later of two upserts under one key wins, whatever the first wrote. */
  lemma UpsertEntityLastWins(tables: Tables, faults: Faults, tableName: string, e1: Entity, e2: Entity)
    requires HasKeys(e1) && HasKeys(e2) && KeyOf(e1) == KeyOf(e2)
    requires UpsertEntityRun(tables, faults, tableName, e1).outcome == Completed
    ensures UpsertEntityRun(UpsertEntityRun(tables, faults, tableName, e1).tables, faults, tableName, e2)
            == UpsertEntityRun(tables, faults, tableName, e2)
  {
    var t1 := UpsertEntityRun(tables, faults, tableName, e1).tables;
    assert TableOf(t1, tableName)[KeyOf(e2) := e2] == TableOf(tables, tableName)[KeyOf(e2) := e2];
  }

  // ---------------------------------------------------------------------
  // Batch deletion

  const BatchSize: nat := 100

  predicate AllKeyed(es: seq<Entity>)
  {
    forall i | 0 <= i < |es| :: HasKeys(es[i])
  }

  /** The keys of a list of entities. */
  function KeySet(es: seq<Entity>): set<EntityKey>
    requires AllKeyed(es)
  {
    set i | 0 <= i < |es| :: KeyOf(es[i])
  }

  lemma KeySetConcat(xs: seq<Entity>, ys: seq<Entity>)
    requires AllKeyed(xs) && AllKeyed(ys)
    ensures AllKeyed(xs + ys) && KeySet(xs + ys) == KeySet(xs) + KeySet(ys)
  {
    var zs := xs + ys;
    assert forall i | 0 <= i < |ys| :: zs[|xs| + i] == ys[i];
    forall k | k in KeySet(zs) ensures k in KeySet(xs) + KeySet(ys) {
      var i :| 0 <= i < |zs| && KeyOf(zs[i]) == k;
      if i >= |xs| { assert zs[i] == ys[i - |xs|]; } else { assert zs[i] == xs[i]; }
    }
    forall k | k in KeySet(xs) ensures k in KeySet(zs) {
      var i :| 0 <= i < |xs| && KeyOf(xs[i]) == k;
      assert zs[i] == xs[i];
    }
    forall k | k in KeySet(ys) ensures k in KeySet(zs) {
      var i :| 0 <= i < |ys| && KeyOf(ys[i]) == k;
      assert zs[|xs| + i] == ys[i];
    }
  }

  /** No two entities of `es` carry the same key. */
  predicate DistinctKeys(es: seq<Entity>)
    requires AllKeyed(es)
  {
    forall i, j | 0 <= i < j < |es| :: KeyOf(es[i]) != KeyOf(es[j])
  }

  /**
   * A list the service deletes in one go: the table exists and is not
   * faulty, and every entity is keyed, not faulty, stored in the table and
   * listed once.
   */
  predicate Deletable(tables: Tables, faults: Faults, tableName: string, es: seq<Entity>)
  {
    && tableName in tables && tableName !in faults.tables
    && AllKeyed(es)
    && (forall i | 0 <= i < |es| :: KeyOf(es[i]) !in faults.entities && KeyOf(es[i]) in tables[tableName])
    && DistinctKeys(es)
  }

  /** The outcome of one `submit_transaction` of deletes. */
  datatype Transaction = Committed(tables: Tables) | TableMissing | Rejected

  /**
   * One transaction, atomic: it deletes every key of its batch or none. A
   * table that does not exist is reported as not found; a faulty table or
   * key, a key the table does not hold, or a key listed twice rejects the
   * whole change set.
   */
  function SubmitDeletes(tables: Tables, faults: Faults, tableName: string, batch: seq<Entity>): (tx: Transaction)
    requires AllKeyed(batch)
    ensures tx.Committed? <==> Deletable(tables, faults, tableName, batch)
    ensures tx.Committed? ==> tx.tables == tables[tableName := tables[tableName] - KeySet(batch)]
    ensures tx.TableMissing? <==>
              && tableName !in tables && tableName !in faults.tables
              && forall i | 0 <= i < |batch| :: KeyOf(batch[i]) !in faults.entities
  {
    if tableName in faults.tables || exists i | 0 <= i < |batch| :: KeyOf(batch[i]) in faults.entities then Rejected
    else if tableName !in tables then TableMissing
    else if (exists i | 0 <= i < |batch| :: KeyOf(batch[i]) !in tables[tableName]) || !DistinctKeys(batch) then Rejected
    else Committed(tables[tableName := tables[tableName] - KeySet(batch)])
  }

  datatype BatchRun = BatchRun(tables: Tables, outcome: Outcome, transactions: nat)

  /**
   * `delete_entities_batch`: consecutive batches of at most `BatchSize`, one
   * transaction each; a missing table ends the run quietly, any other failure
   * ends it by raising, after the earlier batches were committed. An entity
   * without its keys raises `KeyError` while its batch is being built.
   */
  function DeleteBatches(tables: Tables, faults: Faults, tableName: string, entities: seq<Entity>): (r: BatchRun)
    ensures TablesWellKeyed(tables) ==> TablesWellKeyed(r.tables)
    decreases |entities|
  {
    if entities == [] then BatchRun(tables, Completed, 0)
    else
      var size := if |entities| < BatchSize then |entities| else BatchSize;
      var batch := entities[..size];
      if !AllKeyed(batch) then BatchRun(tables, Raised(KeyError), 0)
      else
        match SubmitDeletes(tables, faults, tableName, batch)
        case TableMissing => BatchRun(tables, Completed, 1)
        case Rejected => BatchRun(tables, Raised(ServiceError), 1)
        case Committed(after) =>
          var rest := DeleteBatches(after, faults, tableName, entities[size..]);
          BatchRun(rest.tables, rest.outcome, rest.transactions + 1)
  }

  /** Number of batches of `BatchSize` needed for `n` items: the ceiling of n / 100. */
  function Batches(n: nat): nat { (n + BatchSize - 1) / BatchSize }

  /** Batch number `k` (from 0) of `es`: the at most `BatchSize` entities from `k * BatchSize` on. */
  function Chunk(es: seq<Entity>, k: nat): seq<Entity>
    requires k * BatchSize <= |es|
  {
    if |es| - k * BatchSize < BatchSize then es[k * BatchSize..] else es[k * BatchSize..(k + 1) * BatchSize]
  }

  /** The tables after the entities of `es` are deleted from table `tableName`. */
  function Without(tables: Tables, tableName: string, es: seq<Entity>): Tables
    requires AllKeyed(es)
  {
    if tableName in tables then tables[tableName := tables[tableName] - KeySet(es)] else tables
  }

  /** Deleting nothing changes nothing. */
  lemma WithoutNothing(tables: Tables, tableName: string, es: seq<Entity>)
    requires es == []
    ensures AllKeyed(es) && Without(tables, tableName, es) == tables
  {
    assert KeySet(es) == {};
    if tableName in tables {
      assert tables[tableName] - KeySet(es) == tables[tableName];
    }
  }

  /** Deleting `a` and then `b` is deleting `a + b`. */
  lemma WithoutCompose(tables: Tables, tableName: string, a: seq<Entity>, b: seq<Entity>)
    requires AllKeyed(a) && AllKeyed(b)
    ensures AllKeyed(a + b)
    ensures Without(Without(tables, tableName, a), tableName, b) == Without(tables, tableName, a + b)
  {
    KeySetConcat(a, b);
    if tableName in tables {
      assert tables[tableName] - KeySet(a) - KeySet(b) == tables[tableName] - KeySet(a + b);
    }
  }

  /** A list deletable in one go splits into two that are deletable one after the other. */
  lemma DeletableSplit(tables: Tables, faults: Faults, tableName: string, a: seq<Entity>, b: seq<Entity>)
    requires Deletable(tables, faults, tableName, a + b)
    ensures Deletable(tables, faults, tableName, a)
    ensures Deletable(Without(tables, tableName, a), faults, tableName, b)
  {
    var ab := a + b;
    assert forall i | 0 <= i < |a| :: a[i] == ab[i];
    assert forall j | 0 <= j < |b| :: b[j] == ab[|a| + j];
    forall j | 0 <= j < |b| ensures KeyOf(b[j]) !in KeySet(a) {
      forall i | 0 <= i < |a| ensures KeyOf(a[i]) != KeyOf(b[j]) {
        assert KeyOf(ab[i]) != KeyOf(ab[|a| + j]);
      }
    }
  }

  /** When nothing fails, every listed entity is deleted, in ⌈n/100⌉ transactions, and nothing else. */
  lemma {:induction false} DeleteBatchesDeletesAll(tables: Tables, faults: Faults, tableName: string, es: seq<Entity>)
    requires Deletable(tables, faults, tableName, es)
    ensures DeleteBatches(tables, faults, tableName, es)
            == BatchRun(tables[tableName := tables[tableName] - KeySet(es)], Completed, Batches(|es|))
    decreases |es|
  {
    WithoutNothing(tables, tableName, []);
    if es != [] {
      var size := if |es| < BatchSize then |es| else BatchSize;
      var batch, rest := es[..size], es[size..];
      assert es == batch + rest;
      DeletableSplit(tables, faults, tableName, batch, rest);
      var after := Without(tables, tableName, batch);
      assert SubmitDeletes(tables, faults, tableName, batch) == Committed(after);
      DeleteBatchesDeletesAll(after, faults, tableName, rest);
      WithoutCompose(tables, tableName, batch, rest);
      assert Batches(|rest|) + 1 == Batches(|es|);
    }
  }

  /** After `k` whole batches that all go through, the run goes on as a fresh run over the rest of the list. */
  lemma {:induction false} DeleteBatchesSkipsCommitted(tables: Tables, faults: Faults, tableName: string, es: seq<Entity>, k: nat)
    requires k * BatchSize <= |es|
    requires Deletable(tables, faults, tableName, es[..k * BatchSize])
    ensures var rest := DeleteBatches(Without(tables, tableName, es[..k * BatchSize]), faults, tableName, es[k * BatchSize..]);
            DeleteBatches(tables, faults, tableName, es) == BatchRun(rest.tables, rest.outcome, rest.transactions + k)
    decreases k
  {
    if k == 0 {
      WithoutNothing(tables, tableName, es[..0]);
      assert es[0..] == es;
    } else {
      var batch, tail := es[..BatchSize], es[BatchSize..];
      var more := tail[..(k - 1) * BatchSize];
      assert es[..k * BatchSize] == batch + more;
      DeletableSplit(tables, faults, tableName, batch, more);
      var after := Without(tables, tableName, batch);
      assert SubmitDeletes(tables, faults, tableName, batch) == Committed(after);
      DeleteBatchesSkipsCommitted(after, faults, tableName, tail, k - 1);
      WithoutCompose(tables, tableName, batch, more);
      assert tail[(k - 1) * BatchSize..] == es[k * BatchSize..];
    }
  }

  /**
   * Batch `k` rejected after the `k` before it went through: those stay
   * deleted, the rest of the list is untouched, and the run raises after
   * `k + 1` transactions.
   */
  lemma DeleteBatchesRejectedAt(tables: Tables, faults: Faults, tableName: string, es: seq<Entity>, k: nat)
    requires k * BatchSize < |es|
    requires Deletable(tables, faults, tableName, es[..k * BatchSize])
    requires AllKeyed(Chunk(es, k))
    requires SubmitDeletes(Without(tables, tableName, es[..k * BatchSize]), faults, tableName, Chunk(es, k)).Rejected?
    ensures DeleteBatches(tables, faults, tableName, es)
            == BatchRun(Without(tables, tableName, es[..k * BatchSize]), Raised(ServiceError), k + 1)
  {
    DeleteBatchesSkipsCommitted(tables, faults, tableName, es, k);
    var rest := es[k * BatchSize..];
    var size := if |rest| < BatchSize then |rest| else BatchSize;
    assert rest[..size] == Chunk(es, k);
  }

  /**
   * An entity without its keys in batch `k`, after the `k` before it went
   * through: `KeyError` after `k` transactions, the earlier batches deleted.
   */
  lemma DeleteBatchesUnkeyedAt(tables: Tables, faults: Faults, tableName: string, es: seq<Entity>, k: nat)
    requires k * BatchSize < |es|
    requires Deletable(tables, faults, tableName, es[..k * BatchSize])
    requires !AllKeyed(Chunk(es, k))
    ensures DeleteBatches(tables, faults, tableName, es)
            == BatchRun(Without(tables, tableName, es[..k * BatchSize]), Raised(KeyError), k)
  {
    DeleteBatchesSkipsCommitted(tables, faults, tableName, es, k);
    var rest := es[k * BatchSize..];
    var size := if |rest| < BatchSize then |rest| else BatchSize;
    assert rest[..size] == Chunk(es, k);
  }

  /** A table that does not exist: the first transaction reports not found and the run ends quietly. */
  lemma DeleteBatchesTableMissing(tables: Tables, faults: Faults, tableName: string, es: seq<Entity>)
    requires es != [] && tableName !in tables && tableName !in faults.tables
    requires AllKeyed(Chunk(es, 0))
    requires forall i | 0 <= i < |Chunk(es, 0)| :: KeyOf(Chunk(es, 0)[i]) !in faults.entities
    ensures DeleteBatches(tables, faults, tableName, es) == BatchRun(tables, Completed, 1)
  {
    var size := if |es| < BatchSize then |es| else BatchSize;
    assert es[..size] == Chunk(es, 0);
  }

  /**
   * Run `r` over `es` deleted exactly the first `p` entities, a whole number
   * of batches; it completed only when that is the whole list or the table
   * does not exist, and every batch it submitted but the last went through.
   */
  predicate DeletedPrefix(tables: Tables, tableName: string, es: seq<Entity>, r: BatchRun, p: nat)
  {
    && p <= |es|
    && AllKeyed(es[..p])
    && r.tables == Without(tables, tableName, es[..p])
    && (p % BatchSize == 0 || p == |es|)
    && (r.outcome == Completed ==> p == |es| || (p == 0 && tableName !in tables))
    && (r.outcome != Completed ==> p < |es|)
    && r.transactions == Batches(p) + (if p == |es| || r.outcome == Raised(KeyError) then 0 else 1)
  }

  /** A first batch that goes through adds its entities to what the rest of the run deletes. */
  lemma DeletedPrefixStep(tables: Tables, faults: Faults, tableName: string, es: seq<Entity>, q: nat)
    requires es != []
    requires Deletable(tables, faults, tableName, Chunk(es, 0))
    requires var after := Without(tables, tableName, Chunk(es, 0));
             var rest := es[|Chunk(es, 0)|..];
             DeletedPrefix(after, tableName, rest, DeleteBatches(after, faults, tableName, rest), q)
    ensures DeletedPrefix(tables, tableName, es, DeleteBatches(tables, faults, tableName, es), |Chunk(es, 0)| + q)
  {
    var size := |Chunk(es, 0)|;
    var batch, rest := es[..size], es[size..];
    assert batch == Chunk(es, 0);
    var after := Without(tables, tableName, batch);
    assert SubmitDeletes(tables, faults, tableName, batch) == Committed(after);
    var s := DeleteBatches(after, faults, tableName, rest);
    assert DeleteBatches(tables, faults, tableName, es) == BatchRun(s.tables, s.outcome, s.transactions + 1);
    WithoutCompose(tables, tableName, batch, rest[..q]);
    assert es[..size + q] == batch + rest[..q];
    assert tableName in after;
    assert size < BatchSize ==> rest == [] && q == 0;
    BatchesStep(size, q);
  }

  /** One more batch in front: a full one, or a short last one with nothing after it. */
  lemma BatchesStep(size: nat, q: nat)
    requires 0 < size <= BatchSize && (size < BatchSize ==> q == 0)
    ensures Batches(size + q) == Batches(q) + 1
    ensures (size + q) % BatchSize == 0 <==> q % BatchSize == 0 && size == BatchSize
  {
  }

  /** Whatever happens, the run has deleted exactly the entities of a prefix of whole batches (see `DeletedPrefix`). */
  lemma {:induction false} DeleteBatchesDeletesPrefix(tables: Tables, faults: Faults, tableName: string, es: seq<Entity>)
    ensures exists p: nat :: DeletedPrefix(tables, tableName, es, DeleteBatches(tables, faults, tableName, es), p)
    decreases |es|
  {
    var r := DeleteBatches(tables, faults, tableName, es);
    WithoutNothing(tables, tableName, es[..0]);
    if es == [] {
      assert DeletedPrefix(tables, tableName, es, r, 0);
    } else {
      var size := if |es| < BatchSize then |es| else BatchSize;
      var batch := es[..size];
      assert batch == Chunk(es, 0);
      if AllKeyed(batch) && Deletable(tables, faults, tableName, batch) {
        var after := Without(tables, tableName, batch);
        DeleteBatchesDeletesPrefix(after, faults, tableName, es[size..]);
        var q: nat :| DeletedPrefix(after, tableName, es[size..], DeleteBatches(after, faults, tableName, es[size..]), q);
        DeletedPrefixStep(tables, faults, tableName, es, q);
      } else {
        assert DeletedPrefix(tables, tableName, es, r, 0);
      }
    }
  }

  // ---------------------------------------------------------------------
  // The service

  class StorageService {
    const connectionString: string
    const faults: Faults
    var blobs: map<BlobKey, Stored>
    var queues: Queues
    var tables: Tables

    predicate Valid()
      reads this
    {
      TablesWellKeyed(tables)
    }

    /** `StorageService(connection_string)`, over an account holding the given blobs, queues and tables. */
    constructor (configured: string, faults: Faults, blobs: map<BlobKey, Stored>, queues: Queues, tables: Tables)
      requires TablesWellKeyed(tables)
      ensures connectionString == ConnectionStringFor(configured)
      ensures this.faults == faults && this.blobs == blobs && this.queues == queues && this.tables == tables
      ensures Valid()
    {
      if configured == DevelopmentStorage {
        connectionString := EmulatorConnectionString;
      } else {
        connectionString := configured;
      }
      this.faults := faults;
      this.blobs := blobs;
      this.queues := queues;
      this.tables := tables;
    }

    function Queue(name: string): seq<Stored>
      reads this
    {
      Messages(queues, name)
    }

    method UploadQueueMessage(queueName: string, message: Json) returns (out: Outcome)
      modifies this`queues
      ensures QueueRun(queues, out) == SendMessage(old(queues), faults.messages, queueName, message)
    {
      if queueName == "" || !Truthy(message) {
        return Raised(ValueError);
      }
      var payload := if message.JObj? then JsonText(message) else Verbatim(message);
      if (queueName, payload) in faults.messages {
        return Raised(ServiceError);
      }
      queues := queues[queueName := Queue(queueName) + [payload]];
      out := Completed;
    }

    method UploadBlobData(container: string, name: string, data: Json, overwrite: bool := true) returns (out: Outcome)
      modifies this`blobs
      ensures BlobRun(blobs, out) == PutBlob(old(blobs), faults.blobs, container, name, data, overwrite)
    {
      if container == "" || name == "" {
        return Raised(ValueError);
      }
      var payload := if data.JObj? || data.JList? then JsonText(data) else Verbatim(data);
      if (container, name) in faults.blobs {
        return Raised(ServiceError);
      }
      if !overwrite && (container, name) in blobs {
        return Raised(ResourceExistsError);
      }
      blobs := blobs[(container, name) := payload];
      out := Completed;
    }

    /** `get_entities` without a filter: every entity of the table, or [] when the table does not exist. */
    method GetEntities(tableName: string) returns (r: Result<seq<Entity>>)
      requires Valid()
      ensures tableName == "" ==> r == Failed(ValueError)
      ensures tableName != "" && tableName in faults.tables ==> r == Failed(ServiceError)
      ensures tableName != "" && tableName !in faults.tables && tableName !in tables ==> r == Ok([])
      ensures tableName != "" && tableName !in faults.tables && tableName in tables ==>
                r.Ok? && Lists(r.value, tables[tableName])
    {
      if tableName == "" {
        return Failed(ValueError);
      }
      if tableName in faults.tables {
        return Failed(ServiceError);
      }
      if tableName !in tables {
        return Ok([]);
      }
      var t := tables[tableName];
      var keys := Enumerate(t.Keys);
      var es := seq(|keys|, i requires 0 <= i < |keys| => t[keys[i]]);
      forall k | k in t ensures t[k] in es {
        var i :| 0 <= i < |keys| && keys[i] == k;
        assert es[i] == t[k];
      }
      r := Ok(es);
    }

    method UpsertEntity(tableName: string, entity: Entity) returns (out: Outcome)
      requires Valid()
      modifies this`tables
      ensures Valid()
      ensures TableRun(tables, out) == UpsertEntityRun(old(tables), faults, tableName, entity)
    {
      if tableName == "" || !HasKeys(entity) {
        return Raised(ValueError);
      }
      if tableName in faults.tables || KeyOf(entity) in faults.entities {
        return Raised(ServiceError);
      }
      tables := tables[tableName := TableOf(tables, tableName)[KeyOf(entity) := entity]];
      out := Completed;
    }

    method DeleteEntity(tableName: string, pk: string, rk: string) returns (out: Outcome)
      requires Valid()
      modifies this`tables
      ensures Valid()
      ensures TableRun(tables, out) == DeleteEntityRun(old(tables), faults, tableName, pk, rk)
    {
      if tableName == "" || pk == "" || rk == "" {
        return Raised(ValueError);
      }
      if tableName in faults.tables || (JStr(pk), JStr(rk)) in faults.entities {
        return Raised(ServiceError);
      }
      if tableName in tables && (JStr(pk), JStr(rk)) in tables[tableName] {
        tables := tables[tableName := tables[tableName] - {(JStr(pk), JStr(rk))}];
      }
      out := Completed;
    }

    method DeleteEntitiesBatch(tableName: string, entities: seq<Entity>) returns (out: Outcome)
      requires Valid()
      modifies this`tables
      ensures Valid()
      ensures tables == DeleteBatches(old(tables), faults, tableName, entities).tables
      ensures out == DeleteBatches(old(tables), faults, tableName, entities).outcome
    {
      if entities == [] {
        return Completed;
      }
      var i := 0;
      while i < |entities|
        invariant 0 <= i <= |entities|
        invariant DeleteBatches(tables, faults, tableName, entities[i..]).tables
                  == DeleteBatches(old(tables), faults, tableName, entities).tables
        invariant DeleteBatches(tables, faults, tableName, entities[i..]).outcome
                  == DeleteBatches(old(tables), faults, tableName, entities).outcome
        decreases |entities| - i
      {
        var remaining := entities[i..];
        var size := if |remaining| < BatchSize then |remaining| else BatchSize;
        var batch := remaining[..size];
        if !AllKeyed(batch) {
          return Raised(KeyError);
        }
        var tx := SubmitDeletes(tables, faults, tableName, batch);
        if tx.TableMissing? {
          return Completed;
        } else if tx.Rejected? {
          return Raised(ServiceError);
        }
        assert remaining[size..] == entities[i + size..];
        tables := tx.tables;
        i := i + size;
      }
      assert entities[i..] == [];
      out := Completed;
    }
  }
}
