/** TransactionProcessor: the consumer's handling of one transaction read from
    the topic, against the transactions table. */
module TransactionProcessor {
  import opened Outcomes
  import opened TransactionModel

  datatype TransactionStatus = PROCESSED | REJECTED | ERROR

  datatype ProcessedTransaction = ProcessedTransaction(
    transactionId: string,
    accountId: string,
    amount: int,
    ttype: TransactionType,
    description: string,
    timestamp: string,
    processedAt: string,
    pixData: Option<PixData>,
    status: TransactionStatus)

  /** An item of the transactions table: a full record written by
      saveTransaction, or the key and status alone, which is what an update
      of an absent id creates. */
  datatype Item = Full(record: ProcessedTransaction) | StatusOnly(status: TransactionStatus)

  function StatusOf(item: Item): TransactionStatus
  {
    match item
    case Full(r) => r.status
    case StatusOnly(s) => s
  }

  /** The "Transaction already processed" state error, or a failure of the
      table for an id. */
  datatype ProcessError = AlreadyProcessed | StoreFailure(id: string)

  const AlreadyProcessedMessage := "Transaction already processed"

  /** Which table calls fail: existence checks (which then answer false),
      saves (by id and status) and status updates (by id). */
  datatype StoreEnv = StoreEnv(
    unreachable: set<string>,
    failingSaves: set<(string, TransactionStatus)>,
    failingUpdates: set<string>)

  /** The record for a transaction, copying every field of it. */
  function RecordOf(tx: Transaction, processedAt: string, status: TransactionStatus): ProcessedTransaction
  {
    ProcessedTransaction(tx.id, tx.accountId, tx.amount, tx.ttype, tx.description, tx.timestamp,
                         processedAt, tx.pixData, status)
  }

  predicate TransactionExists(env: StoreEnv, items: map<string, Item>, id: string)
  {
    id in items && id !in env.unreachable
  }

  /** The table after an attempt to save a record; a failed save leaves it. */
  function Saved(env: StoreEnv, items: map<string, Item>, r: ProcessedTransaction): map<string, Item>
  {
    if (r.transactionId, r.status) in env.failingSaves then items else items[r.transactionId := Full(r)]
  }

  /** processTransaction as written: the duplicate check throws inside the
      try block, so a duplicate, like a failed save, leads to an attempt to
      save an ERROR record before the exception propagates. processedAt and
      failedAt are the two clock readings. */
  function ProcessSpec(env: StoreEnv, items: map<string, Item>, tx: Transaction, processedAt: string, failedAt: string)
    : (Result<ProcessedTransaction, ProcessError>, map<string, Item>)
  {
    var failed := RecordOf(tx, failedAt, ERROR);
    if TransactionExists(env, items, tx.id) then (Failure(AlreadyProcessed), Saved(env, items, failed))
    else
      var record := RecordOf(tx, processedAt, PROCESSED);
      if (tx.id, PROCESSED) in env.failingSaves then (Failure(StoreFailure(tx.id)), Saved(env, items, failed))
      else (Success(record), items[tx.id := Full(record)])
  }

  /** processTransaction with the duplicate rejected before anything is
      written, as the idempotency test expects. */
  function ProcessIdempotentSpec(env: StoreEnv, items: map<string, Item>, tx: Transaction, processedAt: string, failedAt: string)
    : (Result<ProcessedTransaction, ProcessError>, map<string, Item>)
  {
    if TransactionExists(env, items, tx.id) then (Failure(AlreadyProcessed), items)
    else ProcessSpec(env, items, tx, processedAt, failedAt)
  }

  /** updateTransactionStatus: sets the status of an existing item, or
      creates an item with the status alone; the item's other fields stay. */
  function WithStatus(items: map<string, Item>, id: string, status: TransactionStatus): Item
  {
    if id !in items then StatusOnly(status)
    else match items[id]
      case Full(r) => Full(r.(status := status))
      case StatusOnly(_) => StatusOnly(status)
  }

  function ReprocessSpec(env: StoreEnv, items: map<string, Item>, id: string): (Outcome<ProcessError>, map<string, Item>)
  {
    if id in env.failingUpdates then (Fail(StoreFailure(id)), items)
    else (Pass, items[id := WithStatus(items, id, PROCESSED)])
  }

  // ----- Properties -----

  /** A new id is processed into a record copying the transaction, with
      status PROCESSED; the result is exactly the record saved. */
  lemma NewTransactionProcessed(env: StoreEnv, items: map<string, Item>, tx: Transaction, processedAt: string, failedAt: string)
    requires !TransactionExists(env, items, tx.id) && (tx.id, PROCESSED) !in env.failingSaves
    ensures var (r, items') := ProcessSpec(env, items, tx, processedAt, failedAt);
            && r.Success?
            && r.value.transactionId == tx.id && r.value.accountId == tx.accountId && r.value.amount == tx.amount
            && r.value.ttype == tx.ttype && r.value.description == tx.description
            && r.value.timestamp == tx.timestamp && r.value.pixData == tx.pixData
            && r.value.status == PROCESSED && r.value.processedAt == processedAt
            && items' == items[tx.id := Full(r.value)]
  {
  }

  /** A duplicate id throws "Transaction already processed" and never gets a
      new PROCESSED record. */
  lemma DuplicateRejected(env: StoreEnv, items: map<string, Item>, tx: Transaction, processedAt: string, failedAt: string)
    requires TransactionExists(env, items, tx.id)
    ensures var (r, items') := ProcessSpec(env, items, tx, processedAt, failedAt);
            && r == Failure(AlreadyProcessed)
            && (items'[tx.id] == items[tx.id] || items'[tx.id] == Full(RecordOf(tx, failedAt, ERROR)))
  {
  }

  /** Every failure, the duplicate included, attempts to save an ERROR record
      with the same fields; if that save fails too, the table is unchanged
      and the original error still propagates. */
  lemma FailureSavesErrorRecord(env: StoreEnv, items: map<string, Item>, tx: Transaction, processedAt: string, failedAt: string)
    ensures var (r, items') := ProcessSpec(env, items, tx, processedAt, failedAt);
            && (r.Failure? ==> items' == Saved(env, items, RecordOf(tx, failedAt, ERROR)))
            && (r.Failure? && (tx.id, ERROR) in env.failingSaves ==> items' == items)
            && (r == Failure(AlreadyProcessed) <==> TransactionExists(env, items, tx.id))
  {
  }

  /** Processing touches only the transaction's own id, and after a success
      the table holds it with status PROCESSED. */
  lemma ProcessFrame(env: StoreEnv, items: map<string, Item>, tx: Transaction, processedAt: string, failedAt: string)
    ensures var (r, items') := ProcessSpec(env, items, tx, processedAt, failedAt);
            && (forall id :: id != tx.id ==> (id in items' <==> id in items) && (id in items ==> items'[id] == items[id]))
            && (r.Success? ==> tx.id in items' && StatusOf(items'[tx.id]) == PROCESSED)
  {
  }

  /** As written, a replayed message turns a PROCESSED record into an ERROR
      record whenever the ERROR save succeeds. */
  lemma DuplicateOverwritesRecord(env: StoreEnv, items: map<string, Item>, tx: Transaction, processedAt: string, failedAt: string)
    requires TransactionExists(env, items, tx.id) && StatusOf(items[tx.id]) == PROCESSED
    requires (tx.id, ERROR) !in env.failingSaves
    ensures var (_, items') := ProcessSpec(env, items, tx, processedAt, failedAt);
            StatusOf(items'[tx.id]) == ERROR && items' != items
  {
    assert StatusOf(items[tx.id]) != StatusOf(Full(RecordOf(tx, failedAt, ERROR)));
  }

  /** A concrete replay: the first run stores PROCESSED, the second, with the
      same message, leaves ERROR in the table. */
  lemma ReplayExample()
    ensures var tx := NewTransaction("TXN-001", "ACC-001", 10000, CREDIT, "Credit", "2024-01-01T10:00:00");
            var env := StoreEnv({}, {}, {});
            var (r1, items1) := ProcessSpec(env, map[], tx, "t1", "t1");
            var (r2, items2) := ProcessSpec(env, items1, tx, "t2", "t2");
            && r1.Success? && StatusOf(items1[tx.id]) == PROCESSED
            && r2 == Failure(AlreadyProcessed) && StatusOf(items2[tx.id]) == ERROR
  {
  }

  /** With the duplicate rejected up front, a duplicate changes nothing, so
      replaying a processed message keeps its PROCESSED record. */
  lemma IdempotentReplay(env: StoreEnv, items: map<string, Item>, tx: Transaction, t1: string, f1: string, t2: string, f2: string)
    requires tx.id !in env.unreachable
    ensures var (r1, items1) := ProcessIdempotentSpec(env, items, tx, t1, f1);
            var (r2, items2) := ProcessIdempotentSpec(env, items1, tx, t2, f2);
            r1.Success? ==> r2 == Failure(AlreadyProcessed) && items2 == items1 && StatusOf(items2[tx.id]) == PROCESSED
    ensures TransactionExists(env, items, tx.id) ==> ProcessIdempotentSpec(env, items, tx, t1, f1) == (Failure(AlreadyProcessed), items)
    ensures !TransactionExists(env, items, tx.id) ==> ProcessIdempotentSpec(env, items, tx, t1, f1) == ProcessSpec(env, items, tx, t1, f1)
  {
  }

  /** reprocessFailedTransaction sets the id's status to PROCESSED and leaves
      every other id and every other field alone; a failed update changes
      nothing and propagates. */
  lemma ReprocessSetsProcessed(env: StoreEnv, items: map<string, Item>, id: string)
    ensures var (r, items') := ReprocessSpec(env, items, id);
            && (r.Pass? <==> id !in env.failingUpdates)
            && (r.Pass? ==> id in items' && StatusOf(items'[id]) == PROCESSED)
            && (r.Pass? && id in items && items[id].Full? ==> items'[id] == Full(items[id].record.(status := PROCESSED)))
            && (r.Fail? ==> items' == items && r.error == StoreFailure(id))
            && (forall k :: k != id ==> (k in items' <==> k in items) && (k in items ==> items'[k] == items[k]))
  {
  }

  /** The transactions table. */
  class TransactionStore {
    var items: map<string, Item>
    const env: StoreEnv

    constructor (items: map<string, Item>, env: StoreEnv)
      ensures this.items == items && this.env == env
    {
      this.items := items;
      this.env := env;
    }

    /** transactionExists: a failed lookup answers false. */
    method Exists(id: string) returns (b: bool)
      ensures b == TransactionExists(env, items, id)
    {
      b := id in items && id !in env.unreachable;
    }

    /** saveTransaction: writes the whole record, or throws. */
    method SaveTransaction(r: ProcessedTransaction) returns (ok: bool)
      modifies this
      ensures ok == ((r.transactionId, r.status) !in env.failingSaves)
      ensures items == Saved(env, old(items), r)
    {
      if (r.transactionId, r.status) in env.failingSaves {
        return false;
      }
      items := items[r.transactionId := Full(r)];
      ok := true;
    }

    /** updateTransactionStatus, or throws. */
    method UpdateTransactionStatus(id: string, status: TransactionStatus) returns (ok: bool)
      modifies this
      ensures ok == (id !in env.failingUpdates)
      ensures items == if ok then old(items)[id := WithStatus(old(items), id, status)] else old(items)
    {
      if id in env.failingUpdates {
        return false;
      }
      items := items[id := WithStatus(items, id, status)];
      ok := true;
    }
  }

  /** processTransaction. */
  method ProcessTransaction(store: TransactionStore, tx: Transaction, processedAt: string, failedAt: string)
    returns (r: Result<ProcessedTransaction, ProcessError>)
    modifies store
    ensures (r, store.items) == ProcessSpec(store.env, old(store.items), tx, processedAt, failedAt)
  {
    var found := store.Exists(tx.id);
    var error: ProcessError;
    if found {
      error := AlreadyProcessed;
    } else {
      var record := RecordOf(tx, processedAt, PROCESSED);
      var saved := store.SaveTransaction(record);
      if saved {
        return Success(record);
      }
      error := StoreFailure(tx.id);
    }
    var _ := store.SaveTransaction(RecordOf(tx, failedAt, ERROR));
    r := Failure(error);
  }

  /** processTransaction with the duplicate check before the try block. */
  method ProcessTransactionIdempotent(store: TransactionStore, tx: Transaction, processedAt: string, failedAt: string)
    returns (r: Result<ProcessedTransaction, ProcessError>)
    modifies store
    ensures (r, store.items) == ProcessIdempotentSpec(store.env, old(store.items), tx, processedAt, failedAt)
  {
    var found := store.Exists(tx.id);
    if found {
      return Failure(AlreadyProcessed);
    }
    r := ProcessTransaction(store, tx, processedAt, failedAt);
  }

  /** reprocessFailedTransaction. */
  method ReprocessFailedTransaction(store: TransactionStore, id: string) returns (r: Outcome<ProcessError>)
    modifies store
    ensures (r, store.items) == ReprocessSpec(store.env, old(store.items), id)
  {
    var ok := store.UpdateTransactionStatus(id, PROCESSED);
    r := if ok then Pass else Fail(StoreFailure(id));
  }
}
