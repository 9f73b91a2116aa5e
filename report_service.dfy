/** ReportService: the JSON and CSV reports written to the reports bucket,
    their keys and metadata, and which write failures propagate. */
module ReportService {
  import opened Outcomes
  import opened TransactionModel
  import opened Text
  import opened PeriodKeys

  /** The body of a stored object. JSON serialisation is not modelled: a JSON
      body carries the summary it serialises. */
  datatype Body = SummaryJson(summary: TransactionSummary) | CsvText(text: string)

  datatype StoredObject = StoredObject(contentType: string, metadata: map<string, string>, body: Body)

  datatype StoreError = PutFailed(key: string)

  /** The reports bucket as seen through the S3 client: the objects written so
      far, and the keys whose put throws (the client's failures). */
  class ObjectStore {
    var objects: map<string, StoredObject>
    var failingKeys: set<string>

    constructor (failing: set<string>)
      ensures objects == map[] && failingKeys == failing
    {
      objects := map[];
      failingKeys := failing;
    }

    /** putObject: stores the object, or throws for a failing key. */
    method PutObject(key: string, obj: StoredObject) returns (r: Outcome<StoreError>)
      modifies this`objects
      ensures r == (if key in failingKeys then Fail(PutFailed(key)) else Pass)
      ensures objects == if key in failingKeys then old(objects) else old(objects)[key := obj]
    {
      if key in failingKeys {
        r := Fail(PutFailed(key));
      } else {
        objects := objects[key := obj];
        r := Pass;
      }
    }
  }

  /** The effect of a put whose failure is caught and logged. */
  function PutIgnoringFailure(objects: map<string, StoredObject>, failing: set<string>,
                              key: string, obj: StoredObject): map<string, StoredObject>
  {
    if key in failing then objects else objects[key := obj]
  }

  // ----- Keys -----

  const ReportsPrefix := "reports/"

  function JsonKey(now: DateHour, period: string): string
    requires Printable(now)
  {
    ReportsPrefix + FolderKey(now) + "/transaction-summary-" + period + ".json"
  }

  function CsvKey(now: DateHour, period: string): string
    requires Printable(now)
  {
    ReportsPrefix + FolderKey(now) + "/transaction-summary-" + period + ".csv"
  }

  function AccountsKey(now: DateHour, period: string): string
    requires Printable(now)
  {
    ReportsPrefix + FolderKey(now) + "/top-accounts-" + period + ".csv"
  }

  /** The three report kinds never share a key, and a summary key names its
      period: reports of different periods never overwrite each other. */
  lemma ReportKeysDistinct(n1: DateHour, n2: DateHour, p: string, q: string)
    requires Printable(n1) && Printable(n2)
    ensures JsonKey(n1, p) != CsvKey(n2, q)
    ensures JsonKey(n1, p) != AccountsKey(n2, q)
    ensures CsvKey(n1, p) != AccountsKey(n2, q)
    ensures JsonKey(n1, p) == JsonKey(n2, q) ==> p == q
    ensures CsvKey(n1, p) == CsvKey(n2, q) ==> p == q
    ensures AccountsKey(n1, p) == AccountsKey(n2, q) ==> p == q
  {
    var j, c, a := JsonKey(n1, p), CsvKey(n2, q), AccountsKey(n2, q);
    assert j[|j| - 1] == 'n' && c[|c| - 1] == 'v' && a[|a| - 1] == 'v';
    var c1 := CsvKey(n1, p);
    assert c1[23] == 'r' && a[23] == 'o';
    if JsonKey(n1, p) == JsonKey(n2, q) {
      var j2 := JsonKey(n2, q);
      assert p == j[42..|j| - 5] && q == j2[42..|j2| - 5];
    }
    if CsvKey(n1, p) == CsvKey(n2, q) {
      assert p == c1[42..|c1| - 4] && q == c[42..|c| - 4];
    }
    if AccountsKey(n1, p) == AccountsKey(n2, q) {
      var a1 := AccountsKey(n1, p);
      assert p == a1[35..|a1| - 4] && q == a[35..|a| - 4];
    }
  }

  // ----- Contents -----

  function Metadata(s: TransactionSummary): map<string, string>
  {
    map[
      "report-type" := "transaction-summary",
      "period" := s.period,
      "generated-at" := s.generatedAt,
      "total-transactions" := NatToString(s.totalTransactions),
      "total-amount" := AmountToString(s.totalAmount)]
  }

  /** The metadata carries the period, and totals that read back exactly. */
  lemma MetadataReadsBack(s: TransactionSummary)
    ensures Metadata(s)["period"] == s.period
    ensures DigitsValue(Metadata(s)["total-transactions"]) == s.totalTransactions
    ensures ParseAmount(Metadata(s)["total-amount"]) == Some(s.totalAmount)
  {
    NatToStringRoundTrip(s.totalTransactions);
    AmountRoundTrip(s.totalAmount);
  }

  function TypeLines(t: TransactionType, st: TransactionTypeStats): seq<string>
  {
    var name := Lower(TypeName(t));
    [ name + "_count," + NatToString(st.count),
      name + "_amount," + AmountToString(st.totalAmount),
      name + "_average," + AmountToString(st.averageAmount) ]
  }

  /** The three rows of each type entry, in map order. */
  function TypeChunks(m: seq<(TransactionType, TransactionTypeStats)>): seq<seq<string>>
  {
    seq(|m|, i requires 0 <= i < |m| => TypeLines(m[i].0, m[i].1))
  }

  function Flatten<T>(xs: seq<seq<T>>): seq<T>
  {
    if xs == [] then [] else Flatten(xs[..|xs| - 1]) + xs[|xs| - 1]
  }

  lemma FlattenSnoc<T>(xs: seq<seq<T>>, i: nat)
    requires i < |xs|
    ensures Flatten(xs[..i + 1]) == Flatten(xs[..i]) + xs[i]
  {
    assert xs[..i + 1][..i] == xs[..i];
  }

  /** When every chunk has three lines, chunk i sits at lines 3i .. 3i+2. */
  lemma {:induction false} FlattenLayout<T>(xs: seq<seq<T>>)
    requires forall i :: 0 <= i < |xs| ==> |xs[i]| == 3
    ensures |Flatten(xs)| == 3 * |xs|
    ensures forall i :: 0 <= i < |xs| ==> Flatten(xs)[3 * i .. 3 * i + 3] == xs[i]
  {
    if xs != [] {
      var init, last := xs[..|xs| - 1], xs[|xs| - 1];
      FlattenLayout(init);
      var a := Flatten(init);
      assert Flatten(xs) == a + last;
      forall i | 0 <= i < |xs| ensures Flatten(xs)[3 * i .. 3 * i + 3] == xs[i] {
        if i < |init| {
          assert xs[i] == init[i];
          SliceOfLeft(a, last, 3 * i, 3 * i + 3);
        } else {
          SliceOfRight(a, last);
        }
      }
    }
  }

  lemma SliceOfLeft<T>(a: seq<T>, b: seq<T>, lo: nat, hi: nat)
    requires lo <= hi <= |a|
    ensures (a + b)[lo..hi] == a[lo..hi]
  {
  }

  lemma SliceOfRight<T>(a: seq<T>, b: seq<T>)
    ensures (a + b)[|a|..|a| + |b|] == b
  {
  }

  function TypeRows(m: seq<(TransactionType, TransactionTypeStats)>): seq<string>
  {
    Flatten(TypeChunks(m))
  }

  function KeyTypeLine(k: PixKeyType, count: nat): string
  {
    "pix_" + Lower(KeyTypeName(k)) + "_count," + NatToString(count)
  }

  function KeyTypeRows(m: seq<(PixKeyType, nat)>): seq<string>
  {
    seq(|m|, i requires 0 <= i < |m| => KeyTypeLine(m[i].0, m[i].1))
  }

  function HeaderLines(s: TransactionSummary): seq<string>
  {
    [ "metric,value",
      "period," + s.period,
      "total_transactions," + NatToString(s.totalTransactions),
      "total_amount," + AmountToString(s.totalAmount),
      "generated_at," + s.generatedAt ]
  }

  /** BigDecimal.toString of a sum of amounts over `terms` transactions.
      Kotlin's sumOf starts from a zero of scale 0, so the empty sum prints
      "0"; a sum of scale-2 amounts prints at scale 2. */
  function SumToString(cents: int, terms: nat): string
  {
    if terms == 0 then "0" else AmountToString(cents)
  }

  function PixTotalLines(s: TransactionSummary): seq<string>
  {
    [ "pix_total_transactions," + NatToString(s.pixStats.totalPixTransactions),
      "pix_total_amount," + SumToString(s.pixStats.totalPixAmount, s.pixStats.totalPixTransactions) ]
  }

  /** The PIX amount row (the second PIX total, placed by SummaryCsvLayout):
      `0` when the period had no PIX transaction, and otherwise an amount
      that reads back to the PIX total. */
  lemma PixAmountLine(s: TransactionSummary)
    ensures s.pixStats.totalPixTransactions == 0 ==> PixTotalLines(s)[1] == "pix_total_amount,0"
    ensures s.pixStats.totalPixTransactions > 0 ==>
              exists t :: PixTotalLines(s)[1] == "pix_total_amount," + t && ParseAmount(t) == Some(s.pixStats.totalPixAmount)
  {
    if s.pixStats.totalPixTransactions > 0 {
      AmountRoundTrip(s.pixStats.totalPixAmount);
      var t := AmountToString(s.pixStats.totalPixAmount);
      assert PixTotalLines(s)[1] == "pix_total_amount," + t;
    }
  }

  /** The lines of the summary CSV, in the order they are appended. */
  function SummaryCsvLines(s: TransactionSummary): seq<string>
  {
    HeaderLines(s) + TypeRows(s.transactionsByType) + PixTotalLines(s) + KeyTypeRows(s.pixStats.pixByKeyType)
  }

  /** The summary CSV: the header `metric,value`, then period,
      total_transactions, total_amount and generated_at; three rows
      (count, amount, average) per type entry in map order; the two PIX
      totals; and one row per key-type entry: 7 + 3·types + keyTypes lines. */
  lemma SummaryCsvLayout(s: TransactionSummary)
    ensures |SummaryCsvLines(s)| == 7 + 3 * |s.transactionsByType| + |s.pixStats.pixByKeyType|
    ensures SummaryCsvLines(s)[..5] == HeaderLines(s)
    ensures forall i :: 0 <= i < |s.transactionsByType| ==>
              SummaryCsvLines(s)[5 + 3 * i .. 8 + 3 * i] == TypeLines(s.transactionsByType[i].0, s.transactionsByType[i].1)
    ensures SummaryCsvLines(s)[5 + 3 * |s.transactionsByType| .. 7 + 3 * |s.transactionsByType|] == PixTotalLines(s)
    ensures forall i :: 0 <= i < |s.pixStats.pixByKeyType| ==>
              SummaryCsvLines(s)[7 + 3 * |s.transactionsByType| + i] == KeyTypeLine(s.pixStats.pixByKeyType[i].0, s.pixStats.pixByKeyType[i].1)
  {
    var types := s.transactionsByType;
    var chunks := TypeChunks(types);
    var a, c, d := HeaderLines(s), PixTotalLines(s), KeyTypeRows(s.pixStats.pixByKeyType);
    assert |a| == 5 && |c| == 2;
    assert SummaryCsvLines(s) == a + Flatten(chunks) + c + d;
    PartsLayout(a, chunks, c, d);
    forall i | 0 <= i < |types| ensures chunks[i] == TypeLines(types[i].0, types[i].1) {
    }
  }

  /** Where each part of a five-line head, a run of three-line chunks, a
      two-line middle and a tail lands in their concatenation. */
  lemma PartsLayout<T>(a: seq<T>, chunks: seq<seq<T>>, c: seq<T>, d: seq<T>)
    requires |a| == 5 && |c| == 2
    requires forall i :: 0 <= i < |chunks| ==> |chunks[i]| == 3
    ensures |a + Flatten(chunks) + c + d| == 7 + 3 * |chunks| + |d|
    ensures (a + Flatten(chunks) + c + d)[..5] == a
    ensures forall i :: 0 <= i < |chunks| ==> (a + Flatten(chunks) + c + d)[5 + 3 * i .. 8 + 3 * i] == chunks[i]
    ensures (a + Flatten(chunks) + c + d)[5 + 3 * |chunks| .. 7 + 3 * |chunks|] == c
    ensures forall i :: 0 <= i < |d| ==> (a + Flatten(chunks) + c + d)[7 + 3 * |chunks| + i] == d[i]
  {
    var b := Flatten(chunks);
    FlattenLayout(chunks);
    var all := a + b + c + d;
    assert all == a + b + (c + d);
    forall i | 0 <= i < |chunks| ensures all[5 + 3 * i .. 8 + 3 * i] == chunks[i] {
      assert all[5 + 3 * i .. 8 + 3 * i] == b[3 * i .. 3 * i + 3];
    }
  }

  lemma AppendThree(lines: seq<string>, rows: seq<string>)
    requires |rows| == 3
    ensures JoinLines(lines + rows) == JoinLines(lines) + rows[0] + "\n" + rows[1] + "\n" + rows[2] + "\n"
  {
    JoinLinesAppend(lines, rows[0]);
    JoinLinesAppend(lines + [rows[0]], rows[1]);
    JoinLinesAppend(lines + [rows[0]] + [rows[1]], rows[2]);
    assert lines + rows == lines + [rows[0]] + [rows[1]] + [rows[2]];
  }

  /** generateCsvSummary: appends the header lines, the rows of each type,
      the PIX totals and the rows of each key type to one builder. */
  method GenerateCsvSummary(s: TransactionSummary) returns (csv: string)
    ensures csv == JoinLines(SummaryCsvLines(s))
  {
    var head := HeaderLines(s);
    csv := JoinLines(head);
    var types := TypeRowsCsv(s.transactionsByType);
    var pix := PixTotalLines(s);
    var keys := KeyTypeRowsCsv(s.pixStats.pixByKeyType);
    JoinLinesConcat(head, TypeRows(s.transactionsByType));
    JoinLinesConcat(head + TypeRows(s.transactionsByType), pix);
    JoinLinesConcat(head + TypeRows(s.transactionsByType) + pix, KeyTypeRows(s.pixStats.pixByKeyType));
    csv := csv + types + JoinLines(pix) + keys;
  }

  /** The forEach over the type breakdown. */
  method TypeRowsCsv(types: seq<(TransactionType, TransactionTypeStats)>) returns (csv: string)
    ensures csv == JoinLines(TypeRows(types))
  {
    ghost var lines: seq<string> := [];
    ghost var chunks := TypeChunks(types);
    csv := "";
    for i := 0 to |types|
      invariant lines == Flatten(chunks[..i]) && csv == JoinLines(lines)
    {
      FlattenSnoc(chunks, i);
      var rows := TypeLines(types[i].0, types[i].1);
      assert rows == chunks[i];
      AppendThree(lines, rows);
      csv := csv + rows[0] + "\n" + rows[1] + "\n" + rows[2] + "\n";
      lines := lines + rows;
    }
    assert chunks[..|types|] == chunks;
  }

  /** The forEach over the PIX key-type counts. */
  method KeyTypeRowsCsv(keys: seq<(PixKeyType, nat)>) returns (csv: string)
    ensures csv == JoinLines(KeyTypeRows(keys))
  {
    csv := "";
    for i := 0 to |keys|
      invariant csv == JoinLines(KeyTypeRows(keys)[..i])
    {
      KeyTypeRowsStep(keys, i);
      csv := csv + KeyTypeLine(keys[i].0, keys[i].1) + "\n";
    }
    assert KeyTypeRows(keys)[..|keys|] == KeyTypeRows(keys);
  }

  lemma KeyTypeRowsStep(keys: seq<(PixKeyType, nat)>, i: nat)
    requires i < |keys|
    ensures JoinLines(KeyTypeRows(keys)[..i + 1])
         == JoinLines(KeyTypeRows(keys)[..i]) + KeyTypeLine(keys[i].0, keys[i].1) + "\n"
  {
    var rows := KeyTypeRows(keys);
    assert rows[..i + 1] == rows[..i] + [rows[i]];
    JoinLinesAppend(rows[..i], rows[i]);
  }

  function AccountLine(a: AccountStats): string
  {
    a.accountId + "," + NatToString(a.transactionCount) + "," + AmountToString(a.totalAmount)
  }

  function AccountRows(top: seq<AccountStats>): seq<string>
  {
    if top == [] then [] else AccountRows(top[..|top| - 1]) + [AccountLine(top[|top| - 1])]
  }

  const AccountsHeader := "account_id,transaction_count,total_amount"

  function AccountsCsvLines(s: TransactionSummary): seq<string>
  {
    [AccountsHeader] + AccountRows(s.topAccounts)
  }

  /** The accounts CSV: its header, then one row per ranked account in
      ranking order. */
  lemma {:induction false} AccountsCsvLayout(s: TransactionSummary)
    ensures |AccountsCsvLines(s)| == 1 + |s.topAccounts|
    ensures AccountsCsvLines(s)[0] == AccountsHeader
    ensures forall i :: 0 <= i < |s.topAccounts| ==> AccountsCsvLines(s)[i + 1] == AccountLine(s.topAccounts[i])
  {
    AccountRowsLayout(s.topAccounts);
  }

  lemma {:induction false} AccountRowsLayout(top: seq<AccountStats>)
    ensures |AccountRows(top)| == |top|
    ensures forall i :: 0 <= i < |top| ==> AccountRows(top)[i] == AccountLine(top[i])
  {
    if top != [] {
      var init := top[..|top| - 1];
      AccountRowsLayout(init);
      assert forall i :: 0 <= i < |init| ==> init[i] == top[i];
    }
  }

  /** The accounts body built in saveDetailedReport. */
  method AccountsCsv(s: TransactionSummary) returns (csv: string)
    ensures csv == JoinLines(AccountsCsvLines(s))
  {
    ghost var lines := [AccountsHeader];
    csv := AccountsHeader + "\n";
    assert csv == JoinLines(lines) by {
      JoinLinesAppend([], AccountsHeader);
      assert [] + [AccountsHeader] == [AccountsHeader];
    }
    var top := s.topAccounts;
    for i := 0 to |top|
      invariant lines == [AccountsHeader] + AccountRows(top[..i]) && csv == JoinLines(lines)
    {
      assert top[..i + 1][..i] == top[..i];
      var line := AccountLine(top[i]);
      JoinLinesAppend(lines, line);
      csv := csv + line + "\n";
      lines := lines + [line];
    }
    assert top[..|top|] == top;
  }

  function JsonObject(s: TransactionSummary): StoredObject
  {
    StoredObject("application/json", Metadata(s), SummaryJson(s))
  }

  function CsvObject(s: TransactionSummary): StoredObject
  {
    StoredObject("text/csv", map[], CsvText(JoinLines(SummaryCsvLines(s))))
  }

  function AccountsObject(s: TransactionSummary): StoredObject
  {
    StoredObject("text/csv", map[], CsvText(JoinLines(AccountsCsvLines(s))))
  }

  /** saveReport: writes the JSON report, rethrowing its failure, then the
      summary CSV in the same folder, whose failure is only logged. */
  method SaveReport(store: ObjectStore, s: TransactionSummary, now: DateHour) returns (r: Outcome<StoreError>)
    requires Printable(now)
    modifies store
    ensures store.failingKeys == old(store.failingKeys)
    ensures r.Fail? <==> JsonKey(now, s.period) in store.failingKeys
    ensures r.Fail? ==> store.objects == old(store.objects)
    ensures r.Pass? ==>
              store.objects == PutIgnoringFailure(old(store.objects)[JsonKey(now, s.period) := JsonObject(s)],
                                                  store.failingKeys, CsvKey(now, s.period), CsvObject(s))
  {
    var jsonKey := JsonKey(now, s.period);
    r := store.PutObject(jsonKey, JsonObject(s));
    if r.Fail? {
      return;
    }
    SaveCsvSummary(store, s, now);
  }

  /** saveCsvSummary: a failure of the write is caught and logged. */
  method SaveCsvSummary(store: ObjectStore, s: TransactionSummary, now: DateHour)
    requires Printable(now)
    modifies store
    ensures store.failingKeys == old(store.failingKeys)
    ensures store.objects == PutIgnoringFailure(old(store.objects), store.failingKeys, CsvKey(now, s.period), CsvObject(s))
  {
    var csv := GenerateCsvSummary(s);
    var _ := store.PutObject(CsvKey(now, s.period), StoredObject("text/csv", map[], CsvText(csv)));
  }

  /** saveDetailedReport: writes the accounts CSV; never throws. */
  method SaveDetailedReport(store: ObjectStore, s: TransactionSummary, now: DateHour)
    requires Printable(now)
    modifies store
    ensures store.failingKeys == old(store.failingKeys)
    ensures store.objects == PutIgnoringFailure(old(store.objects), store.failingKeys, AccountsKey(now, s.period), AccountsObject(s))
  {
    var csv := AccountsCsv(s);
    var _ := store.PutObject(AccountsKey(now, s.period), StoredObject("text/csv", map[], CsvText(csv)));
  }
}
