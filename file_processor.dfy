/** FileProcessor: the producer's job. It takes each listed input file, skips
    it when already marked in the processed-files table, validates its
    transactions, then rejects the file, or sends its valid transactions to
    the topic and marks it. The S3 buckets, the processed-files table and the
    topic are fields; which calls of theirs fail is fixed at construction. */
module FileProcessor {
  import opened TransactionModel
  import opened Validation

  const StatusProcessed := "PROCESSED"
  const StatusRejected := "REJECTED"
  const StatusError := "ERROR"

  /** Why a file went to the rejected bucket: the "No valid transactions
      found" reason, or the "High error rate" reason for a ratio. */
  datatype RejectionReason = NoValidTransactions | HighErrorRate(invalid: nat, total: nat)

  /** What processFile did with one file. Processed and Failed carry the
      transactions that reached the topic. */
  datatype Disposition =
    | Skipped
    | Rejected(reason: RejectionReason)
    | Processed(sentBatch: seq<Transaction>, invalidCount: nat)
    | Failed(errorMarked: bool, sentBatch: seq<Transaction>)

  function SentBy(d: Disposition): seq<Transaction>
  {
    if d.Processed? || d.Failed? then d.sentBatch else []
  }

  function SentByAll(ds: seq<Disposition>): seq<Transaction>
  {
    if ds == [] then [] else SentByAll(ds[..|ds| - 1]) + SentBy(ds[|ds| - 1])
  }

  // ----- Keys -----

  /** substringAfterLast("/"): the part after the last slash, or the whole
      key when it has none. */
  function AfterLastSlash(s: string): (r: string)
    ensures '/' !in r
    ensures |r| <= |s| && r == s[|s| - |r|..]
  {
    if s == [] then []
    else if s[|s| - 1] == '/' then []
    else AfterLastSlash(s[..|s| - 1]) + [s[|s| - 1]]
  }

  /** The file name of a key with a folder part, and the whole key without
      one. */
  lemma {:induction false} AfterLastSlashOf(folder: string, name: string)
    requires '/' !in name
    ensures AfterLastSlash(folder + "/" + name) == name
    ensures '/' !in folder ==> AfterLastSlash(folder) == folder
  {
    if name != [] {
      var init := name[..|name| - 1];
      assert (folder + "/" + name)[..|folder + "/" + name| - 1] == folder + "/" + init;
      AfterLastSlashOf(folder, init);
      assert init + [name[|name| - 1]] == name;
    } else {
      assert folder + "/" + name == folder + "/";
    }
    if '/' !in folder {
      NoSlashKept(folder);
    }
  }

  lemma {:induction false} NoSlashKept(s: string)
    requires '/' !in s
    ensures AfterLastSlash(s) == s
  {
    if s != [] {
      NoSlashKept(s[..|s| - 1]);
    }
  }

  function RejectedKey(fileKey: string): string
  {
    "rejected/" + AfterLastSlash(fileKey)
  }

  // ----- Validation of a file's transactions -----

  /** The transactions that pass validation, in file order. */
  function FilterValid(txs: seq<Transaction>, pixEnabled: bool): seq<Transaction>
  {
    if txs == [] then []
    else FilterValid(txs[..|txs| - 1], pixEnabled) + (if IsValid(txs[|txs| - 1], pixEnabled) then [txs[|txs| - 1]] else [])
  }

  /** The number of transactions that fail validation: the sum of a 0 or 1
      per transaction. */
  function InvalidCount(txs: seq<Transaction>, pixEnabled: bool): nat
  {
    if txs == [] then 0
    else InvalidCount(txs[..|txs| - 1], pixEnabled) + (if IsValid(txs[|txs| - 1], pixEnabled) then 0 else 1)
  }

  /** Every transaction is either kept or counted invalid. */
  lemma {:induction false} PartitionCounts(txs: seq<Transaction>, pixEnabled: bool)
    ensures |FilterValid(txs, pixEnabled)| + InvalidCount(txs, pixEnabled) == |txs|
  {
    if txs != [] {
      PartitionCounts(txs[..|txs| - 1], pixEnabled);
    }
  }

  /** Filtering a file is filtering its parts: the valid transactions keep
      the file's order. */
  lemma {:induction false} FilterValidConcat(a: seq<Transaction>, b: seq<Transaction>, pixEnabled: bool)
    ensures FilterValid(a + b, pixEnabled) == FilterValid(a, pixEnabled) + FilterValid(b, pixEnabled)
  {
    if b == [] {
      assert a + b == a;
    } else {
      var init, last := b[..|b| - 1], b[|b| - 1];
      assert (a + b)[..|a + b| - 1] == a + init;
      FilterValidConcat(a, init, pixEnabled);
    }
  }

  /** The valid transactions are exactly the file's transactions that pass. */
  lemma {:induction false} FilterValidMembers(txs: seq<Transaction>, pixEnabled: bool, t: Transaction)
    ensures t in FilterValid(txs, pixEnabled) <==> t in txs && IsValid(t, pixEnabled)
  {
    if txs != [] {
      var init := txs[..|txs| - 1];
      FilterValidMembers(init, pixEnabled, t);
      assert txs == init + [txs[|txs| - 1]];
    }
  }

  /** The rejection rule: more than 10% invalid, written on integers. */
  predicate HighErrorRateRule(invalid: nat, total: nat)
  {
    10 * invalid > total
  }

  /** The integer rule is the ratio invalid/total > 0.1; exactly 10% passes. */
  lemma HighErrorRateIsRatio(invalid: nat, total: nat)
    requires total > 0
    ensures HighErrorRateRule(invalid, total) <==> (invalid as real) / (total as real) > 0.1
    ensures !HighErrorRateRule(total, 10 * total)
  {
    var t := total as real;
    DivExceeds(invalid as real, t, 0.1);
    assert (10 * invalid) as real == 10.0 * (invalid as real);
  }

  lemma DivExceeds(a: real, t: real, b: real)
    requires t > 0.0
    ensures a / t > b <==> a > b * t
  {
    var q := a / t;
    assert q * t == a;
    if q > b {
      assert (q - b) * t > 0.0;
    } else {
      assert (b - q) * t >= 0.0;
    }
  }

  // ----- Sending -----

  /** What a batch send delivers: the transactions before the first one whose
      send throws. */
  function SentPrefix(batch: seq<Transaction>, failing: set<string>): (r: seq<Transaction>)
    ensures |r| <= |batch| && r == batch[..|r|]
  {
    if batch == [] then []
    else if batch[0].id in failing then []
    else [batch[0]] + SentPrefix(batch[1..], failing)
  }

  predicate SendFails(batch: seq<Transaction>, failing: set<string>)
  {
    exists i :: 0 <= i < |batch| && batch[i].id in failing
  }

  /** The whole batch goes out exactly when no send in it throws. */
  lemma {:induction false} SentPrefixWhole(batch: seq<Transaction>, failing: set<string>)
    ensures SentPrefix(batch, failing) == batch <==> !SendFails(batch, failing)
  {
    if batch != [] {
      SentPrefixWhole(batch[1..], failing);
      if batch[0].id !in failing {
        assert SendFails(batch, failing) <==> SendFails(batch[1..], failing) by {
          if SendFails(batch, failing) {
            var i :| 0 <= i < |batch| && batch[i].id in failing;
            assert batch[1..][i - 1] == batch[i];
          }
          if SendFails(batch[1..], failing) {
            var i :| 0 <= i < |batch[1..]| && batch[1..][i].id in failing;
            assert batch[i + 1] == batch[1..][i];
          }
        }
        assert [batch[0]] + batch[1..] == batch;
      } else {
        assert SendFails(batch, failing);
      }
    }
  }

  /** With no failing send before position i, and a failing one at i (or
      the end of the batch there), exactly the first i transactions go out. */
  lemma {:induction false} SentPrefixUpTo(batch: seq<Transaction>, failing: set<string>, i: nat)
    requires i <= |batch|
    requires forall j :: 0 <= j < i ==> batch[j].id !in failing
    requires i == |batch| || batch[i].id in failing
    ensures SentPrefix(batch, failing) == batch[..i]
  {
    if i == 0 {
      assert batch[..0] == [];
    } else {
      var rest := batch[1..];
      assert batch[0].id !in failing;
      forall j | 0 <= j < i - 1 ensures rest[j].id !in failing {
        assert rest[j] == batch[j + 1];
      }
      assert i - 1 < |rest| ==> rest[i - 1] == batch[i];
      SentPrefixUpTo(rest, failing, i - 1);
      assert batch[..i] == [batch[0]] + rest[..i - 1];
    }
  }

  // ----- The producer's state and its collaborators' failures -----

  /** The processed-files table (file key to status), the input bucket (file
      key to the transactions its lines parse to), the rejected bucket
      (object key to rejection reason) and the transactions topic. */
  datatype ProducerState = ProducerState(
    processedFiles: map<string, string>,
    inputFiles: map<string, seq<Transaction>>,
    rejectedFiles: map<string, RejectionReason>,
    sent: seq<Transaction>)

  /** The PIX flag, and which collaborator calls fail: table lookups (which
      then answer false), reads (which then answer no transactions), moves,
      marks (key and status) and sends (by transaction id). */
  datatype Environment = Environment(
    pixEnabled: bool,
    unreachable: set<string>,
    unreadable: set<string>,
    failingMoves: set<string>,
    failingMarks: set<(string, string)>,
    failingSends: set<string>)

  predicate IsFileProcessed(env: Environment, st: ProducerState, key: string)
  {
    key in st.processedFiles && key !in env.unreachable
  }

  function ReadTransactions(env: Environment, st: ProducerState, key: string): seq<Transaction>
  {
    if key in env.unreadable || key !in st.inputFiles then [] else st.inputFiles[key]
  }

  predicate MoveFails(env: Environment, st: ProducerState, key: string)
  {
    key in env.failingMoves || key !in st.inputFiles
  }

  /** The table after an attempt to mark a file; a failed write leaves it. */
  function Marked(env: Environment, table: map<string, string>, key: string, status: string): map<string, string>
  {
    if (key, status) in env.failingMarks then table else table[key := status]
  }

  /** The catch block: an attempt to mark the file ERROR. */
  function MarkErrorSpec(env: Environment, st: ProducerState, key: string, delivered: seq<Transaction>): (Disposition, ProducerState)
  {
    (Failed((key, StatusError) !in env.failingMarks, delivered),
     st.(processedFiles := Marked(env, st.processedFiles, key, StatusError)))
  }

  /** Move to the rejected bucket, then mark REJECTED. */
  function RejectSpec(env: Environment, st: ProducerState, key: string, reason: RejectionReason): (Disposition, ProducerState)
  {
    if MoveFails(env, st, key) then MarkErrorSpec(env, st, key, [])
    else
      var moved := st.(inputFiles := st.inputFiles - {key},
                       rejectedFiles := st.rejectedFiles[RejectedKey(key) := reason]);
      if (key, StatusRejected) in env.failingMarks then MarkErrorSpec(env, moved, key, [])
      else (Rejected(reason), moved.(processedFiles := moved.processedFiles[key := StatusRejected]))
  }

  /** What processFile does to one file. */
  function ProcessFileSpec(env: Environment, st: ProducerState, key: string): (Disposition, ProducerState)
  {
    if IsFileProcessed(env, st, key) then (Skipped, st)
    else
      var txs := ReadTransactions(env, st, key);
      if txs == [] then RejectSpec(env, st, key, NoValidTransactions)
      else
        var invalid := InvalidCount(txs, env.pixEnabled);
        if HighErrorRateRule(invalid, |txs|) then RejectSpec(env, st, key, HighErrorRate(invalid, |txs|))
        else
          var valid := FilterValid(txs, env.pixEnabled);
          var delivered := SentPrefix(valid, env.failingSends);
          var st1 := st.(sent := st.sent + delivered);
          if SendFails(valid, env.failingSends) then MarkErrorSpec(env, st1, key, delivered)
          else if (key, StatusProcessed) in env.failingMarks then MarkErrorSpec(env, st1, key, valid)
          else (Processed(valid, invalid), st1.(processedFiles := st1.processedFiles[key := StatusProcessed]))
  }

  /** What processFiles does to a listing: each file in turn. */
  function ProcessFilesSpec(env: Environment, st: ProducerState, listing: seq<string>): (seq<Disposition>, ProducerState)
  {
    FoldFiles((s: ProducerState, key: string) => ProcessFileSpec(env, s, key), st, listing)
  }

  /** Applies a per-file step to each file of a listing in turn. */
  function FoldFiles(step: (ProducerState, string) -> (Disposition, ProducerState), st: ProducerState, listing: seq<string>)
    : (seq<Disposition>, ProducerState)
  {
    if listing == [] then ([], st)
    else
      var (ds, st1) := FoldFiles(step, st, listing[..|listing| - 1]);
      var (d, st2) := step(st1, listing[|listing| - 1]);
      (ds + [d], st2)
  }

  // ----- Properties of processFile -----

  /** A file is skipped exactly when the table says it was processed, and a
      skip changes nothing: no read, no send, no new mark. */
  lemma SkipIffMarked(env: Environment, st: ProducerState, key: string)
    ensures ProcessFileSpec(env, st, key).0 == Skipped <==> IsFileProcessed(env, st, key)
    ensures ProcessFileSpec(env, st, key).0 == Skipped ==> ProcessFileSpec(env, st, key).1 == st
  {
  }

  /** A file with no transactions is moved to the rejected bucket with the
      "No valid transactions found" reason and marked REJECTED; nothing is
      sent. */
  lemma EmptyFileRejected(env: Environment, st: ProducerState, key: string)
    requires !IsFileProcessed(env, st, key) && ReadTransactions(env, st, key) == []
    requires !MoveFails(env, st, key) && (key, StatusRejected) !in env.failingMarks
    ensures var (d, st') := ProcessFileSpec(env, st, key);
            && d == Rejected(NoValidTransactions)
            && st'.processedFiles == st.processedFiles[key := StatusRejected]
            && st'.inputFiles == st.inputFiles - {key}
            && st'.rejectedFiles == st.rejectedFiles[RejectedKey(key) := NoValidTransactions]
            && st'.sent == st.sent
  {
  }

  /** A file with more than 10% invalid transactions sends nothing: it is
      rejected for its error rate, or the rejection fails into the catch
      block. */
  lemma HighErrorRateSendsNothing(env: Environment, st: ProducerState, key: string)
    requires !IsFileProcessed(env, st, key)
    requires var txs := ReadTransactions(env, st, key);
             txs != [] && HighErrorRateRule(InvalidCount(txs, env.pixEnabled), |txs|)
    ensures var (d, st') := ProcessFileSpec(env, st, key);
            var txs := ReadTransactions(env, st, key);
            && st'.sent == st.sent
            && !d.Processed?
            && (d.Rejected? ==> d.reason == HighErrorRate(InvalidCount(txs, env.pixEnabled), |txs|)
                                && st'.processedFiles == st.processedFiles[key := StatusRejected])
            && (!MoveFails(env, st, key) && (key, StatusRejected) !in env.failingMarks ==> d.Rejected?)
  {
  }

  /** Otherwise the valid transactions go out as one batch, in file order,
      and the file is then marked PROCESSED. */
  lemma AcceptedFileSent(env: Environment, st: ProducerState, key: string)
    requires !IsFileProcessed(env, st, key)
    requires var txs := ReadTransactions(env, st, key);
             txs != [] && !HighErrorRateRule(InvalidCount(txs, env.pixEnabled), |txs|)
    requires !SendFails(FilterValid(ReadTransactions(env, st, key), env.pixEnabled), env.failingSends)
    requires (key, StatusProcessed) !in env.failingMarks
    ensures var (d, st') := ProcessFileSpec(env, st, key);
            var txs := ReadTransactions(env, st, key);
            && d == Processed(FilterValid(txs, env.pixEnabled), InvalidCount(txs, env.pixEnabled))
            && st'.sent == st.sent + FilterValid(txs, env.pixEnabled)
            && st'.processedFiles == st.processedFiles[key := StatusProcessed]
            && st'.inputFiles == st.inputFiles && st'.rejectedFiles == st.rejectedFiles
  {
    var valid := FilterValid(ReadTransactions(env, st, key), env.pixEnabled);
    SentPrefixWhole(valid, env.failingSends);
  }

  /** Every failure ends in an attempt to mark the file ERROR; when that mark
      fails too, the table keeps what it had. */
  lemma FailureMarksError(env: Environment, st: ProducerState, key: string)
    ensures var (d, st') := ProcessFileSpec(env, st, key);
            d.Failed? ==>
              && d.errorMarked == ((key, StatusError) !in env.failingMarks)
              && st'.processedFiles == Marked(env, st.processedFiles, key, StatusError)
  {
  }

  /** processFile only appends to the topic, never drops a table entry,
      touches no other file, and leaves the file marked unless even the ERROR
      mark failed. */
  lemma ProcessFileFrame(env: Environment, st: ProducerState, key: string)
    ensures var (d, st') := ProcessFileSpec(env, st, key);
            && st'.sent == st.sent + SentBy(d)
            && ChangedAtMost(st.processedFiles, st'.processedFiles, key)
            && (st'.inputFiles == st.inputFiles || st'.inputFiles == st.inputFiles - {key})
            && (d != Failed(false, SentBy(d)) ==> key in st'.processedFiles)
  {
    if !IsFileProcessed(env, st, key) {
      var txs := ReadTransactions(env, st, key);
      if txs == [] {
        RejectFrame(env, st, key, NoValidTransactions);
      } else {
        var invalid := InvalidCount(txs, env.pixEnabled);
        if HighErrorRateRule(invalid, |txs|) {
          RejectFrame(env, st, key, HighErrorRate(invalid, |txs|));
        } else {
          var valid := FilterValid(txs, env.pixEnabled);
          var delivered := SentPrefix(valid, env.failingSends);
          var st1 := st.(sent := st.sent + delivered);
          if SendFails(valid, env.failingSends) {
            MarkErrorFrame(env, st1, key, delivered);
          } else {
            SentPrefixWhole(valid, env.failingSends);
            if (key, StatusProcessed) in env.failingMarks {
              MarkErrorFrame(env, st1, key, valid);
            }
          }
        }
      }
    }
  }

  /** The ERROR mark sends nothing, touches no other file and marks the file
      unless the mark itself fails. */
  lemma MarkErrorFrame(env: Environment, st: ProducerState, key: string, delivered: seq<Transaction>)
    ensures var (d, st') := MarkErrorSpec(env, st, key, delivered);
            && st'.sent == st.sent && SentBy(d) == delivered && st'.inputFiles == st.inputFiles
            && ChangedAtMost(st.processedFiles, st'.processedFiles, key)
            && (d != Failed(false, delivered) ==> key in st'.processedFiles)
  {
    UpdateChangesOne(st.processedFiles, key, StatusError);
  }

  /** Every key of the old map is kept, and only the given key may have a
      new value. */
  predicate ChangedAtMost<K, V(==)>(before: map<K, V>, after: map<K, V>, key: K)
  {
    && before.Keys <= after.Keys
    && forall k :: k != key && k in before ==> after[k] == before[k]
  }

  lemma UpdateChangesOne<K, V>(m: map<K, V>, key: K, v: V)
    ensures ChangedAtMost(m, m, key) && ChangedAtMost(m, m[key := v], key)
  {
  }

  /** A rejection sends nothing, removes at most this file from the input
      bucket, touches no other mark and marks the file unless the ERROR
      mark fails. */
  lemma RejectFrame(env: Environment, st: ProducerState, key: string, reason: RejectionReason)
    ensures var (d, st') := RejectSpec(env, st, key, reason);
            && st'.sent == st.sent && SentBy(d) == []
            && ChangedAtMost(st.processedFiles, st'.processedFiles, key)
            && (st'.inputFiles == st.inputFiles || st'.inputFiles == st.inputFiles - {key})
            && (d != Failed(false, []) ==> key in st'.processedFiles)
  {
    if MoveFails(env, st, key) {
      MarkErrorFrame(env, st, key, []);
    } else if (key, StatusRejected) in env.failingMarks {
      MovedMarkFailsFrame(env, st, key, reason);
    } else {
      MovedMarkedFrame(env, st, key, reason);
    }
  }

  /** The file was moved, but the REJECTED mark fails into the catch block. */
  lemma MovedMarkFailsFrame(env: Environment, st: ProducerState, key: string, reason: RejectionReason)
    requires !MoveFails(env, st, key) && (key, StatusRejected) in env.failingMarks
    ensures var (d, st') := RejectSpec(env, st, key, reason);
            && st'.sent == st.sent && SentBy(d) == []
            && ChangedAtMost(st.processedFiles, st'.processedFiles, key)
            && st'.inputFiles == st.inputFiles - {key}
            && (d != Failed(false, []) ==> key in st'.processedFiles)
  {
    var moved := st.(inputFiles := st.inputFiles - {key},
                     rejectedFiles := st.rejectedFiles[RejectedKey(key) := reason]);
    MarkErrorFrame(env, moved, key, []);
  }

  /** The file was moved and marked REJECTED. */
  lemma MovedMarkedFrame(env: Environment, st: ProducerState, key: string, reason: RejectionReason)
    requires !MoveFails(env, st, key) && (key, StatusRejected) !in env.failingMarks
    ensures var (d, st') := RejectSpec(env, st, key, reason);
            && d == Rejected(reason)
            && st'.sent == st.sent
            && ChangedAtMost(st.processedFiles, st'.processedFiles, key)
            && st'.inputFiles == st.inputFiles - {key}
            && key in st'.processedFiles
  {
    UpdateChangesOne(st.processedFiles, key, StatusRejected);
  }

  /** Once a file is marked, a later run skips it (while the table answers). */
  lemma RerunSkips(env: Environment, st: ProducerState, key: string)
    requires key !in env.unreachable
    ensures var (d, st') := ProcessFileSpec(env, st, key);
            d != Failed(false, SentBy(d)) ==> ProcessFileSpec(env, st', key) == (Skipped, st')
  {
    ProcessFileFrame(env, st, key);
  }

  // ----- Properties of processFiles -----

  /** The facts processFile guarantees about one step. */
  predicate StepKeeps(st: ProducerState, key: string, r: (Disposition, ProducerState))
  {
    && r.1.sent == st.sent + SentBy(r.0)
    && st.processedFiles.Keys <= r.1.processedFiles.Keys
    && (r.0 != Failed(false, SentBy(r.0)) ==> key in r.1.processedFiles)
  }

  lemma {:induction false} FoldFilesInOrder(step: (ProducerState, string) -> (Disposition, ProducerState), st: ProducerState, listing: seq<string>)
    requires forall s, k :: StepKeeps(s, k, step(s, k))
    ensures var (ds, st') := FoldFiles(step, st, listing);
            && |ds| == |listing|
            && st'.sent == st.sent + SentByAll(ds)
            && st.processedFiles.Keys <= st'.processedFiles.Keys
            && (forall i :: 0 <= i < |ds| && ds[i] != Failed(false, SentBy(ds[i])) ==> listing[i] in st'.processedFiles)
  {
    if listing != [] {
      var init, last := listing[..|listing| - 1], listing[|listing| - 1];
      FoldFilesInOrder(step, st, init);
      var (ds1, st1) := FoldFiles(step, st, init);
      var (d, st2) := step(st1, last);
      assert StepKeeps(st1, last, step(st1, last));
      var ds := ds1 + [d];
      assert ds[..|ds1|] == ds1 && ds[|ds1|] == d;
      forall i | 0 <= i < |ds| && ds[i] != Failed(false, SentBy(ds[i])) ensures listing[i] in st2.processedFiles {
        if i < |ds1| {
          assert ds[i] == ds1[i] && listing[i] == init[i];
        }
      }
    }
  }

  /** processFiles handles every listed file, in order: one disposition per
      file, and the topic receives each file's batch in listing order. Marks
      never disappear, and every listed file ends up marked unless its ERROR
      mark failed. */
  lemma ProcessFilesInOrder(env: Environment, st: ProducerState, listing: seq<string>)
    ensures var (ds, st') := ProcessFilesSpec(env, st, listing);
            && |ds| == |listing|
            && st'.sent == st.sent + SentByAll(ds)
            && st.processedFiles.Keys <= st'.processedFiles.Keys
            && (forall i :: 0 <= i < |ds| && ds[i] != Failed(false, SentBy(ds[i])) ==> listing[i] in st'.processedFiles)
  {
    var step := (s: ProducerState, key: string) => ProcessFileSpec(env, s, key);
    forall s, k ensures StepKeeps(s, k, step(s, k)) {
      ProcessFileFrame(env, s, k);
    }
    FoldFilesInOrder(step, st, listing);
  }

  /** The producer's collaborators. */
  class FileProcessor {
    var processedFiles: map<string, string>
    var inputFiles: map<string, seq<Transaction>>
    var rejectedFiles: map<string, RejectionReason>
    var sent: seq<Transaction>
    const env: Environment

    constructor (initial: ProducerState, env: Environment)
      ensures State() == initial && this.env == env
    {
      processedFiles, inputFiles, rejectedFiles, sent := initial.processedFiles, initial.inputFiles, initial.rejectedFiles, initial.sent;
      this.env := env;
    }

    function State(): ProducerState
      reads this
    {
      ProducerState(processedFiles, inputFiles, rejectedFiles, sent)
    }

    /** moveToRejected: copies the file under its rejected key with the
        reason and deletes it from the input bucket, or throws. */
    method MoveToRejected(key: string, reason: RejectionReason) returns (ok: bool)
      modifies this`inputFiles, this`rejectedFiles
      ensures ok == !MoveFails(env, old(State()), key)
      ensures ok ==> inputFiles == old(inputFiles) - {key} && rejectedFiles == old(rejectedFiles)[RejectedKey(key) := reason]
      ensures !ok ==> inputFiles == old(inputFiles) && rejectedFiles == old(rejectedFiles)
    {
      if key in env.failingMoves || key !in inputFiles {
        return false;
      }
      rejectedFiles := rejectedFiles[RejectedKey(key) := reason];
      inputFiles := inputFiles - {key};
      ok := true;
    }

    /** markFileAsProcessed: writes the status, or throws. */
    method MarkFile(key: string, status: string) returns (ok: bool)
      modifies this`processedFiles
      ensures ok == ((key, status) !in env.failingMarks)
      ensures processedFiles == Marked(env, old(processedFiles), key, status)
    {
      if (key, status) in env.failingMarks {
        return false;
      }
      processedFiles := processedFiles[key := status];
      ok := true;
    }

    /** sendBatch: sends the transactions one by one; the first send that
        throws ends the batch. */
    method SendBatch(batch: seq<Transaction>) returns (ok: bool)
      modifies this`sent
      ensures sent == old(sent) + SentPrefix(batch, env.failingSends)
      ensures ok <==> !SendFails(batch, env.failingSends)
    {
      SentPrefixWhole(batch, env.failingSends);
      for i := 0 to |batch|
        invariant sent == old(sent) + batch[..i]
        invariant forall j :: 0 <= j < i ==> batch[j].id !in env.failingSends
      {
        if batch[i].id in env.failingSends {
          SentPrefixUpTo(batch, env.failingSends, i);
          return false;
        }
        sent := sent + [batch[i]];
      }
      SentPrefixUpTo(batch, env.failingSends, |batch|);
      ok := true;
    }

    /** The validation loop of processFile: keeps the valid transactions in
        order and counts the invalid ones. */
    method PartitionValid(txs: seq<Transaction>) returns (valid: seq<Transaction>, invalidCount: nat)
      ensures valid == FilterValid(txs, env.pixEnabled)
      ensures invalidCount == InvalidCount(txs, env.pixEnabled)
      ensures invalidCount + |valid| == |txs|
    {
      valid, invalidCount := [], 0;
      for i := 0 to |txs|
        invariant valid == FilterValid(txs[..i], env.pixEnabled)
        invariant invalidCount == InvalidCount(txs[..i], env.pixEnabled)
      {
        assert txs[..i + 1][..i] == txs[..i];
        var result := Validate(txs[i], env.pixEnabled);
        if result.isValid {
          valid := valid + [txs[i]];
        } else {
          invalidCount := invalidCount + 1;
        }
      }
      assert txs[..|txs|] == txs;
      PartitionCounts(txs, env.pixEnabled);
    }

    /** The catch block of processFile. */
    method MarkError(key: string, delivered: seq<Transaction>) returns (d: Disposition)
      modifies this`processedFiles
      ensures (d, State()) == MarkErrorSpec(env, old(State()), key, delivered)
    {
      var ok := MarkFile(key, StatusError);
      d := Failed(ok, delivered);
    }

    method Reject(key: string, reason: RejectionReason) returns (d: Disposition)
      modifies this`inputFiles, this`rejectedFiles, this`processedFiles
      ensures (d, State()) == RejectSpec(env, old(State()), key, reason)
    {
      var moved := MoveToRejected(key, reason);
      if !moved {
        d := MarkError(key, []);
        return;
      }
      var marked := MarkFile(key, StatusRejected);
      if !marked {
        d := MarkError(key, []);
        return;
      }
      d := Rejected(reason);
    }

    /** processFile. */
    method ProcessFile(key: string) returns (d: Disposition)
      modifies this
      ensures (d, State()) == ProcessFileSpec(env, old(State()), key)
    {
      if key in processedFiles && key !in env.unreachable {
        return Skipped;
      }
      var transactions := if key in env.unreadable || key !in inputFiles then [] else inputFiles[key];
      if transactions == [] {
        d := Reject(key, NoValidTransactions);
        return;
      }
      var valid, invalidCount := PartitionValid(transactions);
      if HighErrorRateRule(invalidCount, |transactions|) {
        d := Reject(key, HighErrorRate(invalidCount, |transactions|));
        return;
      }
      SentPrefixWhole(valid, env.failingSends);
      if valid != [] {
        var sentOk := SendBatch(valid);
        if !sentOk {
          d := MarkError(key, SentPrefix(valid, env.failingSends));
          return;
        }
      }
      var marked := MarkFile(key, StatusProcessed);
      if !marked {
        d := MarkError(key, valid);
        return;
      }
      d := Processed(valid, invalidCount);
    }

    /** processFiles: handles every listed file in order. A failed listing
        answers no files, so the job then does nothing. */
    method ProcessFiles(listing: seq<string>) returns (ds: seq<Disposition>)
      modifies this
      ensures (ds, State()) == ProcessFilesSpec(env, old(State()), listing)
    {
      ds := [];
      if listing == [] {
        return;
      }
      for i := 0 to |listing|
        invariant (ds, State()) == ProcessFilesSpec(env, old(State()), listing[..i])
      {
        assert listing[..i + 1][..i] == listing[..i];
        var d := ProcessFile(listing[i]);
        ds := ds + [d];
      }
      assert listing[..|listing|] == listing;
    }
  }
}
