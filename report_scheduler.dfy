/** ReportScheduler: the hourly flush of the previous period's buffer into
    reports, and the periodic status log. */
module ReportScheduler {
  import opened Outcomes
  import opened TransactionModel
  import opened PeriodKeys
  import SummaryCalculator
  import opened Aggregator
  import opened ReportService
  import opened Text

  /** What one run of the hourly job did with the previous period. */
  datatype FlushOutcome = NoData(period: string) | Flushed(period: string) | SaveFailed(period: string)

  /** The objects a successful flush leaves in the store: the JSON report,
      then the summary CSV and the accounts CSV unless their puts fail. */
  function FlushedObjects(objects: map<string, StoredObject>, failing: set<string>, s: TransactionSummary,
                          reportClock: DateHour, detailClock: DateHour): map<string, StoredObject>
    requires Printable(reportClock) && Printable(detailClock)
  {
    var withJson := objects[JsonKey(reportClock, s.period) := JsonObject(s)];
    var withCsv := PutIgnoringFailure(withJson, failing, CsvKey(reportClock, s.period), CsvObject(s));
    PutIgnoringFailure(withCsv, failing, AccountsKey(detailClock, s.period), AccountsObject(s))
  }

  /** generateHourlyReport. Each call to the clock in the job is a parameter:
      periodClock for the previous period, generatedAt for the summary,
      reportClock and detailClock for the folders of the two reports. A
      failure saving the JSON report is caught by the job, so the period
      then stays buffered; the accounts report never fails the job. */
  method GenerateHourlyReport(agg: TransactionAggregator, store: ObjectStore, periodClock: DateHour,
                              generatedAt: string, reportClock: DateHour, detailClock: DateHour)
    returns (r: FlushOutcome)
    requires agg.Valid()
    requires Valid(periodClock) && Printable(Previous(periodClock))
    requires Printable(reportClock) && Printable(detailClock)
    modifies agg, store
    ensures agg.Valid() && store.failingKeys == old(store.failingKeys)
    ensures r.period == PreviousPeriod(periodClock)
    ensures var p := PreviousPeriod(periodClock);
            p !in old(agg.buffer) ==> r == NoData(p) && agg.buffer == old(agg.buffer) && store.objects == old(store.objects)
    ensures var p := PreviousPeriod(periodClock);
            p in old(agg.buffer) && JsonKey(reportClock, p) in store.failingKeys ==>
              r == SaveFailed(p) && agg.buffer == old(agg.buffer) && store.objects == old(store.objects)
    ensures var p := PreviousPeriod(periodClock);
            p in old(agg.buffer) && JsonKey(reportClock, p) !in store.failingKeys ==>
              && r == Flushed(p)
              && agg.buffer == old(agg.buffer) - {p}
              && var s := SummaryCalculator.Summarize(p, old(agg.buffer)[p], generatedAt).value;
                 store.objects == FlushedObjects(old(store.objects), store.failingKeys, s, reportClock, detailClock)
  {
    var p := PreviousPeriod(periodClock);
    var summary := agg.GenerateSummary(p, generatedAt);
    if summary.None? {
      return NoData(p);
    }
    var saved := SaveReport(store, summary.value, reportClock);
    if saved.Fail? {
      return SaveFailed(p);
    }
    SaveDetailedReport(store, summary.value, detailClock);
    agg.ClearPeriod(p);
    r := Flushed(p);
  }

  /** The CSV puts of a flush never overwrite its JSON report. */
  lemma FlushedKeepsJson(objects: map<string, StoredObject>, failing: set<string>, s: TransactionSummary,
                         reportClock: DateHour, detailClock: DateHour)
    requires Printable(reportClock) && Printable(detailClock)
    ensures JsonKey(reportClock, s.period) in FlushedObjects(objects, failing, s, reportClock, detailClock)
    ensures FlushedObjects(objects, failing, s, reportClock, detailClock)[JsonKey(reportClock, s.period)] == JsonObject(s)
  {
    ReportKeysDistinct(reportClock, reportClock, s.period, s.period);
    ReportKeysDistinct(reportClock, detailClock, s.period, s.period);
    LaterPutsKeep(objects, failing, JsonKey(reportClock, s.period), JsonObject(s),
                  CsvKey(reportClock, s.period), CsvObject(s), AccountsKey(detailClock, s.period), AccountsObject(s));
  }

  /** Two caught puts under other keys keep what an earlier put stored. */
  lemma LaterPutsKeep(objects: map<string, StoredObject>, failing: set<string>, k: string, o: StoredObject,
                      k1: string, o1: StoredObject, k2: string, o2: StoredObject)
    requires k != k1 && k != k2
    ensures var m := PutIgnoringFailure(PutIgnoringFailure(objects[k := o], failing, k1, o1), failing, k2, o2);
            k in m && m[k] == o
  {
  }

  /** After a flush, the stored JSON report is the summary of the whole
      list the period held (GenerateHourlyReport's Flushed case): it names
      the period, counts every buffered transaction, and its metadata reads
      back that count. */
  lemma FlushReportsWholePeriod(objects: map<string, StoredObject>, failing: set<string>, txs: seq<Transaction>,
                                p: string, generatedAt: string, reportClock: DateHour, detailClock: DateHour)
    requires txs != [] && Printable(reportClock) && Printable(detailClock)
    ensures SummaryCalculator.Summarize(p, txs, generatedAt).Some?
    ensures var s := SummaryCalculator.Summarize(p, txs, generatedAt).value;
            var stored := FlushedObjects(objects, failing, s, reportClock, detailClock);
            && JsonKey(reportClock, p) in stored
            && stored[JsonKey(reportClock, p)] == JsonObject(s)
            && s.totalTransactions == |txs|
            && Metadata(s)["period"] == p
            && DigitsValue(Metadata(s)["total-transactions"]) == |txs|
  {
    var s := SummaryCalculator.Summarize(p, txs, generatedAt).value;
    FlushedKeepsJson(objects, failing, s, reportClock, detailClock);
    MetadataReadsBack(s);
  }

  /** The sum of the values of a map: bufferStatus.values.sum(). */
  ghost function TotalOf(m: map<string, nat>): nat
    decreases |m|
  {
    if m == map[] then 0 else var k :| k in m; m[k] + TotalOf(m - {k})
  }

  /** The sum does not depend on the order the entries are taken in. */
  lemma {:induction false} TotalOfRemove(m: map<string, nat>, k: string)
    requires k in m
    ensures TotalOf(m) == m[k] + TotalOf(m - {k})
    decreases |m|
  {
    var j :| j in m && TotalOf(m) == m[j] + TotalOf(m - {j});
    if j != k {
      var mj, mk := m - {j}, m - {k};
      TotalOfRemove(mj, k);
      TotalOfRemove(mk, j);
      assert mj - {k} == mk - {j};
    }
  }

  /** The sum is zero exactly when every value is zero. */
  lemma {:induction false} TotalOfZero(m: map<string, nat>)
    ensures TotalOf(m) == 0 <==> forall k :: k in m ==> m[k] == 0
    decreases |m|
  {
    if m != map[] {
      var j :| j in m && TotalOf(m) == m[j] + TotalOf(m - {j});
      TotalOfZero(m - {j});
      assert forall k :: k in m && k != j ==> k in m - {j};
    }
  }

  /** logStatus: sums the buffer status and logs only when the sum is
      positive. Returns the sum and whether a line was logged. */
  method LogStatus(agg: TransactionAggregator) returns (total: nat, logged: bool)
    ensures total == TotalOf(agg.BufferStatus())
    ensures logged <==> total > 0
  {
    var status := agg.BufferStatus();
    var remaining := status;
    total := 0;
    while remaining != map[]
      invariant total + TotalOf(remaining) == TotalOf(status)
      decreases |remaining|
    {
      var k :| k in remaining;
      TotalOfRemove(remaining, k);
      total := total + remaining[k];
      remaining := remaining - {k};
    }
    logged := total > 0;
  }

  /** Since no buffered period is empty, the status sum is positive exactly
      when some period is buffered. */
  lemma StatusLoggedIffBuffered(agg: TransactionAggregator)
    requires agg.Valid()
    ensures TotalOf(agg.BufferStatus()) > 0 <==> agg.buffer != map[]
  {
    var status := agg.BufferStatus();
    TotalOfZero(status);
    if agg.buffer != map[] {
      var p :| p in agg.buffer;
      assert status[p] == |agg.buffer[p]| > 0;
    } else {
      assert status.Keys == {};
    }
  }
}
