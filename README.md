# Transaction ETL core, modelled in Dafny

A Dafny model of the logic in a three-application Kotlin transaction pipeline.

- **Producer.** Reads JSON-Lines files of transactions from an input bucket. It validates each transaction and decides what to do with each file: skip it, reject it, or send its valid transactions to a topic. It records that decision in a processed-files table.
- **Consumer.** Stores every transaction it receives in a transactions table. It is meant to be idempotent, and it writes an ERROR record when a transaction fails.
- **Aggregator.** Buffers transactions by the wall-clock hour they arrived in. Once an hour it summarises the previous hour, writes a JSON report, a CSV summary and a top-accounts CSV, and clears that hour from the buffer.

Modules and what they model:

- `TransactionModel`: the records and enums.
- `Text`: decimal rendering, lower-casing and line joining.
- `PeriodKeys`:
  - calendar hours;
  - the `yyyy-MM-dd-HH` period key and the `yyyy/MM/dd/HH` folder;
  - the previous hour.
- `Grouping`: Kotlin's insertion-ordered `groupBy`, over association sequences.
- `Ranking`: the stable descending sort and `take`.
- `SummaryCalculator`: the summary fold.
- `Aggregator`: the buffer class.
- `ReportService`: report keys, the CSV bodies and the object store.
- `ReportScheduler`: the flush cycle and the status sum.
- `Validation`: the accumulating validator.
- `FileProcessor`: the file disposition rule and the processing loop.
- `TransactionProcessor`: the consumer's insert and reprocess.

Modelling conventions:

- **Amounts** are `int` cents. BigDecimal values of scale 2 are rendered as `d.dd`. A `sumOf` over no transactions is a zero of scale 0 and renders as `0`; in the reports this happens only for the PIX total of a period without PIX transactions.
- **Kotlin maps built by `groupBy`/`groupingBy`** are LinkedHashMaps. They are modelled as sequences of key/value pairs in first-seen order, because CSV row order depends on that order.
- **The mutable parts** are classes whose methods are proved equal to pure specification functions of the old state:
  - the aggregator buffer;
  - the object store;
  - the producer's collaborators;
  - the transactions table.

  The source's properties are proved as lemmas about those functions.
- **External services** are fields of those classes: maps, plus sets of keys whose calls fail.
  - Lookups that the code makes fail-open are modelled that way: the processed-file check and the transaction-existence check answer false on error, and a failing file read answers no transactions.
- **The clock** is a parameter. Each separate clock reading is its own parameter: the period hour, `generatedAt`, the report folder hour, the detail-report folder hour, and the two consumer `processedAt` readings.

Where the code and its tests disagree, the model follows the code:

- `Validation.MultipleErrorsExample` proves that the input of the multiple-errors test gets four errors, not the three the test expects. The input is a PIX transaction with amount -50.00, a blank account, the PIX flag off and no PIX data. The fourth error is "PIX data is required for PIX transactions".
- For the consumer duplicate, see "## Findings".

## Model

| member | source | states |
|---|---|---|
| TransactionModel.NewTransaction | apps/aggregator/src/main/kotlin/br/com/itau/etl/aggregator/model/Transaction.kt:7-16 | all fields as given, `pixData` absent by default |
| TransactionModel.TypeOrdinal | apps/aggregator/src/main/kotlin/br/com/itau/etl/aggregator/model/Transaction.kt:18-20 | every transaction type sits at its position in the declared order PIX, TED, DOC, CREDIT, DEBIT |
| TransactionModel.KeyTypeOrdinal | apps/aggregator/src/main/kotlin/br/com/itau/etl/aggregator/model/Transaction.kt:28-30 | every PIX key type sits at its position in CPF, CNPJ, EMAIL, PHONE, RANDOM |
| TransactionModel.EnumsClosed | apps/aggregator/src/main/kotlin/br/com/itau/etl/aggregator/model/Transaction.kt:18-30 | both enums have exactly five distinct constants, and every value is one of them |
| TransactionModel.NamesInjective | apps/aggregator/src/main/kotlin/br/com/itau/etl/aggregator/model/Transaction.kt:18-30 | distinct constants have distinct names |
| Text.NatToString | apps/aggregator/src/main/kotlin/br/com/itau/etl/aggregator/service/ReportService.kt:44 | the rendering of a count is a non-empty digit string without a leading zero |
| Text.NatToStringRoundTrip | apps/aggregator/src/main/kotlin/br/com/itau/etl/aggregator/service/ReportService.kt:44 | reading the digits of a rendered count gives the count back |
| Text.NatToStringInjective | apps/aggregator/src/main/kotlin/br/com/itau/etl/aggregator/service/ReportService.kt:44 | distinct counts render differently |
| Text.AmountRoundTrip | apps/aggregator/src/main/kotlin/br/com/itau/etl/aggregator/service/ReportService.kt:45 | an amount rendered at scale 2 parses back to the same number of cents, negatives included |
| Text.Lower | apps/aggregator/src/main/kotlin/br/com/itau/etl/aggregator/service/ReportService.kt:97 | lower-casing keeps the length and maps each character |
| Text.JoinLinesAppend | apps/aggregator/src/main/kotlin/br/com/itau/etl/aggregator/service/ReportService.kt:84-110 | appending a line adds exactly that line and a newline |
| Text.JoinLinesConcat | apps/aggregator/src/main/kotlin/br/com/itau/etl/aggregator/service/ReportService.kt:84-110 | joining two blocks of lines is the concatenation of their texts |
| Text.JoinLinesCount | apps/aggregator/src/main/kotlin/br/com/itau/etl/aggregator/service/ReportService.kt:84-110 | a text of newline-free lines has exactly one newline per line |
| PeriodKeys.DaysInMonth | apps/aggregator/src/main/kotlin/br/com/itau/etl/aggregator/service/TransactionAggregatorService.kt:101 | months have 28 to 31 days (Gregorian leap years) |
| PeriodKeys.Previous | apps/aggregator/src/main/kotlin/br/com/itau/etl/aggregator/service/TransactionAggregatorService.kt:101 | the hour before a valid hour is a valid hour |
| PeriodKeys.Next | apps/aggregator/src/main/kotlin/br/com/itau/etl/aggregator/service/TransactionAggregatorService.kt:101 | the hour after a valid hour is a valid hour |
| PeriodKeys.PreviousNextInverse | apps/aggregator/src/main/kotlin/br/com/itau/etl/aggregator/service/TransactionAggregatorService.kt:101 | stepping one hour back and one forward, in either order, returns the same hour, across day, month and year ends |
| PeriodKeys.PreviousIsOneHourEarlier | apps/aggregator/src/main/kotlin/br/com/itau/etl/aggregator/service/TransactionAggregatorService.kt:99-102 | the previous hour is exactly one hour earlier on the absolute hour scale |
| PeriodKeys.HourStamp | apps/aggregator/src/main/kotlin/br/com/itau/etl/aggregator/service/TransactionAggregatorService.kt:94-97 | the hour as zero-padded four-digit year and two-digit month, day and hour, 13 characters with the separator at positions 4, 7 and 10; `-` gives the period key and `/` the report folder of ReportService.kt:32 |
| PeriodKeys.PeriodKeyRoundTrip | apps/aggregator/src/main/kotlin/br/com/itau/etl/aggregator/service/TransactionAggregatorService.kt:94-97 | parsing a period key gives back the hour it was formatted from |
| PeriodKeys.PeriodKeyInjective | apps/aggregator/src/main/kotlin/br/com/itau/etl/aggregator/service/TransactionAggregatorService.kt:94-97 | distinct hours have distinct period keys |
| Grouping.Distinct | apps/aggregator/src/main/kotlin/br/com/itau/etl/aggregator/service/TransactionAggregatorService.kt:42 | the distinct keys have no duplicates and are exactly the keys present |
| Grouping.DistinctFirstSeen | apps/aggregator/src/main/kotlin/br/com/itau/etl/aggregator/service/TransactionAggregatorService.kt:42 | the distinct keys are listed in order of first occurrence |
| Grouping.GroupBy | apps/aggregator/src/main/kotlin/br/com/itau/etl/aggregator/service/TransactionAggregatorService.kt:41-48 | one group per distinct key, in first-seen order, each holding that key's count and total |
| Grouping.GroupByPartition | apps/aggregator/src/main/kotlin/br/com/itau/etl/aggregator/service/TransactionAggregatorService.kt:41-48 | the group counts sum to the number of entries and the group totals to the sum of all amounts |
| Grouping.GroupByKeys | apps/aggregator/src/main/kotlin/br/com/itau/etl/aggregator/service/TransactionAggregatorService.kt:41-42 | the group keys are duplicate-free and are exactly the keys that occur |
| Ranking.Take | apps/aggregator/src/main/kotlin/br/com/itau/etl/aggregator/service/TransactionAggregatorService.kt:61 | `take(n)` is the prefix of length min(n, size) |
| Ranking.SortByTotalDescCorrect | apps/aggregator/src/main/kotlin/br/com/itau/etl/aggregator/service/TransactionAggregatorService.kt:60 | the descending sort is a permutation, is non-increasing by total, keeps equal-total entries in their original order, and keeps distinct entries distinct |
| SummaryCalculator.PixTransactions | apps/aggregator/src/main/kotlin/br/com/itau/etl/aggregator/service/TransactionAggregatorService.kt:64 | the filter keeps only PIX transactions of the list |
| SummaryCalculator.RoundHalfUp | apps/aggregator/src/main/kotlin/br/com/itau/etl/aggregator/service/TransactionAggregatorService.kt:46 | the quotient is within half a unit of the exact ratio, with ties rounded away from zero |
| SummaryCalculator.Summarize | apps/aggregator/src/main/kotlin/br/com/itau/etl/aggregator/service/TransactionAggregatorService.kt:27-87 | no summary exactly for an empty list; a summary carries the given period and generation time |
| SummaryCalculator.TypeTotalsConsistent | apps/aggregator/src/main/kotlin/br/com/itau/etl/aggregator/service/TransactionAggregatorService.kt:37-48 | `totalTransactions` is the list length; the per-type counts sum to it and the per-type totals to `totalAmount` |
| SummaryCalculator.TypeBreakdownCorrect | apps/aggregator/src/main/kotlin/br/com/itau/etl/aggregator/service/TransactionAggregatorService.kt:41-48 | `transactionsByType` has one entry per observed type and no other; each entry has that type's exact count (positive) and total, and the half-up average |
| SummaryCalculator.AverageExamples | apps/aggregator/src/main/kotlin/br/com/itau/etl/aggregator/service/TransactionAggregatorService.kt:46 | 100.00 and 200.00 average to 150.00; a half-cent tie rounds away from zero in both signs |
| SummaryCalculator.AccountTotalsCorrect | apps/aggregator/src/main/kotlin/br/com/itau/etl/aggregator/service/TransactionAggregatorService.kt:51-59 | one entry per distinct account in first-seen order, each with that account's exact count and total |
| SummaryCalculator.RankedFromTotals | apps/aggregator/src/main/kotlin/br/com/itau/etl/aggregator/service/TransactionAggregatorService.kt:60-61 | the top accounts are a prefix of a non-increasing, stable, duplicate-free permutation of the account totals |
| SummaryCalculator.TopAccountsCorrect | apps/aggregator/src/main/kotlin/br/com/itau/etl/aggregator/service/TransactionAggregatorService.kt:51-61 | at most 10 entries (fewer only when there are fewer accounts), at most one per account, each with that account's exact count and total |
| SummaryCalculator.TopAccountsRanked | apps/aggregator/src/main/kotlin/br/com/itau/etl/aggregator/service/TransactionAggregatorService.kt:51-61 | the top accounts are non-increasing by total, no omitted account has a larger total than an included one, and ties keep first-seen order |
| SummaryCalculator.PixCountsAgree | apps/aggregator/src/main/kotlin/br/com/itau/etl/aggregator/service/TransactionAggregatorService.kt:64-67 | the PIX count and amount equal the PIX type's count and total |
| SummaryCalculator.PixKeyEntriesLength | apps/aggregator/src/main/kotlin/br/com/itau/etl/aggregator/service/TransactionAggregatorService.kt:68-69 | key types are counted only for PIX transactions with `pixData`, so no more than the PIX transactions |
| SummaryCalculator.PixStatsCorrect | apps/aggregator/src/main/kotlin/br/com/itau/etl/aggregator/service/TransactionAggregatorService.kt:63-73 | PIX totals match the type breakdown; the key-type counts sum to the PIX transactions with `pixData`, and equal the PIX count exactly when every one has `pixData` |
| SummaryCalculator.SummaryDeterministic | apps/aggregator/src/main/kotlin/br/com/itau/etl/aggregator/service/TransactionAggregatorService.kt:75-83 | two summaries of the same list differ at most in `generatedAt` |
| Aggregator.CurrentPeriod | apps/aggregator/src/main/kotlin/br/com/itau/etl/aggregator/service/TransactionAggregatorService.kt:94-97 | the current period parses back to the insertion hour |
| Aggregator.PreviousPeriod | apps/aggregator/src/main/kotlin/br/com/itau/etl/aggregator/service/TransactionAggregatorService.kt:99-102 | the previous period parses to an hour exactly one hour before the clock |
| Aggregator.TransactionAggregator.constructor | apps/aggregator/src/main/kotlin/br/com/itau/etl/aggregator/service/TransactionAggregatorService.kt:18 | the buffer starts empty |
| Aggregator.TransactionAggregator.BufferStatus | apps/aggregator/src/main/kotlin/br/com/itau/etl/aggregator/service/TransactionAggregatorService.kt:104-106 | exactly the buffered periods, each with its list length |
| Aggregator.TransactionAggregator.AddTransaction | apps/aggregator/src/main/kotlin/br/com/itau/etl/aggregator/service/TransactionAggregatorService.kt:20-25 | appends to the current hour's list only; that period's status grows by one, and every other period is unchanged |
| Aggregator.TransactionAggregator.GenerateSummary | apps/aggregator/src/main/kotlin/br/com/itau/etl/aggregator/service/TransactionAggregatorService.kt:27-33 | no summary exactly when the period has no list; otherwise the summary of that list |
| Aggregator.TransactionAggregator.ClearPeriod | apps/aggregator/src/main/kotlin/br/com/itau/etl/aggregator/service/TransactionAggregatorService.kt:89-92 | removes that period only; afterwards it has no status and no summary; clearing an absent period changes nothing |
| ReportService.ObjectStore.PutObject | apps/aggregator/src/main/kotlin/br/com/itau/etl/aggregator/service/ReportService.kt:49 | a put stores the object under its key, or fails and changes nothing |
| ReportService.ReportKeysDistinct | apps/aggregator/src/main/kotlin/br/com/itau/etl/aggregator/service/ReportService.kt:29-34 | the JSON, CSV and top-accounts keys never collide, and each determines its period |
| ReportService.MetadataReadsBack | apps/aggregator/src/main/kotlin/br/com/itau/etl/aggregator/service/ReportService.kt:40-46 | the `period` metadata is the period; `total-transactions` and `total-amount` parse back to the summary's values |
| ReportService.FlattenLayout | apps/aggregator/src/main/kotlin/br/com/itau/etl/aggregator/service/ReportService.kt:96-100 | three rows per type entry, each entry's rows in its own consecutive slot |
| ReportService.SummaryCsvLayout | apps/aggregator/src/main/kotlin/br/com/itau/etl/aggregator/service/ReportService.kt:83-111 | `metric,value` then period, total_transactions, total_amount, generated_at; three rows per type; the two PIX totals; one row per key type; 7 + 3·types + key types lines |
| ReportService.PixAmountLine | apps/aggregator/src/main/kotlin/br/com/itau/etl/aggregator/service/ReportService.kt:103-104 | the PIX amount row is `pix_total_amount,0` when the period had no PIX transaction (the empty `sumOf` has scale 0), and otherwise an amount that reads back to the PIX total |
| ReportService.GenerateCsvSummary | apps/aggregator/src/main/kotlin/br/com/itau/etl/aggregator/service/ReportService.kt:83-111 | the StringBuilder text is the joined summary CSV lines |
| ReportService.TypeRowsCsv | apps/aggregator/src/main/kotlin/br/com/itau/etl/aggregator/service/ReportService.kt:96-100 | the loop's text is the joined type rows |
| ReportService.KeyTypeRowsCsv | apps/aggregator/src/main/kotlin/br/com/itau/etl/aggregator/service/ReportService.kt:106-108 | the loop's text is the joined key-type rows |
| ReportService.AccountsCsvLayout | apps/aggregator/src/main/kotlin/br/com/itau/etl/aggregator/service/ReportService.kt:118-122 | the accounts CSV is its header then one row per top account, in order |
| ReportService.AccountRowsLayout | apps/aggregator/src/main/kotlin/br/com/itau/etl/aggregator/service/ReportService.kt:120-122 | one row per account, in order |
| ReportService.AccountsCsv | apps/aggregator/src/main/kotlin/br/com/itau/etl/aggregator/service/ReportService.kt:118-122 | the loop's text is the joined accounts CSV lines |
| ReportService.SaveReport | apps/aggregator/src/main/kotlin/br/com/itau/etl/aggregator/service/ReportService.kt:29-60 | fails exactly when the JSON write fails, and then writes nothing; otherwise the JSON is stored and the CSV is stored unless its write fails, which is swallowed |
| ReportService.SaveCsvSummary | apps/aggregator/src/main/kotlin/br/com/itau/etl/aggregator/service/ReportService.kt:62-81 | stores the CSV under its key if that write succeeds, otherwise nothing |
| ReportService.SaveDetailedReport | apps/aggregator/src/main/kotlin/br/com/itau/etl/aggregator/service/ReportService.kt:113-138 | never fails; stores the accounts CSV under its key if that write succeeds |
| ReportScheduler.GenerateHourlyReport | apps/aggregator/src/main/kotlin/br/com/itau/etl/aggregator/service/ReportSchedulerService.kt:20-47 | targets the previous period; no data means nothing saved or cleared; a failed JSON write means nothing saved or cleared; otherwise the reports are stored and exactly that period is cleared |
| ReportScheduler.FlushReportsWholePeriod | apps/aggregator/src/main/kotlin/br/com/itau/etl/aggregator/service/ReportSchedulerService.kt:25-33 | after a flush of a non-empty period, the JSON report stored under its key is the summary of the whole buffered list: it names the period, its `totalTransactions` is the list length, its metadata reads that count back, and the CSV puts that follow never overwrite it |
| ReportScheduler.LogStatus | apps/aggregator/src/main/kotlin/br/com/itau/etl/aggregator/service/ReportSchedulerService.kt:50-61 | the logged total is the sum of the buffer counts, and a line is logged exactly when it is positive |
| ReportScheduler.StatusLoggedIffBuffered | apps/aggregator/src/main/kotlin/br/com/itau/etl/aggregator/service/ReportSchedulerService.kt:52-57 | the total is positive exactly when some period is buffered |
| Validation.Rank | apps/producer/src/main/kotlin/br/com/itau/etl/producer/service/ValidationService.kt:20-50 | each rule has its position in the check order |
| Validation.MessagesDistinct | apps/producer/src/main/kotlin/br/com/itau/etl/producer/service/ValidationService.kt:23-50 | distinct rules have distinct messages |
| Validation.Validate | apps/producer/src/main/kotlin/br/com/itau/etl/producer/service/ValidationService.kt:19-61 | the result carries the input unchanged, its errors are the messages of the broken rules in check order, and it is valid iff there are none |
| Validation.CheckBasics | apps/producer/src/main/kotlin/br/com/itau/etl/producer/service/ValidationService.kt:23-29 | adds the amount and account messages when those rules are broken |
| Validation.CheckPix | apps/producer/src/main/kotlin/br/com/itau/etl/producer/service/ValidationService.kt:32-45 | adds the flag message, then the key and end-to-end messages or the missing-data message, only for PIX |
| Validation.ErrorsCharacterised | apps/producer/src/main/kotlin/br/com/itau/etl/producer/service/ValidationService.kt:20-50 | a rule's message is among the errors iff the rule is broken |
| Validation.ValidIffNoRuleBroken | apps/producer/src/main/kotlin/br/com/itau/etl/producer/service/ValidationService.kt:52 | valid iff no rule is broken |
| Validation.AmountRules | apps/producer/src/main/kotlin/br/com/itau/etl/producer/service/ValidationService.kt:23-50 | the two amount errors exclude each other; amounts in (0, 100000.00] get neither; 100000.01 exceeds the limit |
| Validation.NonPixIgnoresPixRules | apps/producer/src/main/kotlin/br/com/itau/etl/producer/service/ValidationService.kt:32-45 | a non-PIX transaction gets no PIX error, and its errors depend on neither the flag nor its `pixData` |
| Validation.ErrorsBounded | apps/producer/src/main/kotlin/br/com/itau/etl/producer/service/ValidationService.kt:20-50 | at most five errors |
| Validation.RulesRanked | apps/producer/src/main/kotlin/br/com/itau/etl/producer/service/ValidationService.kt:20-50 | the rules are listed in strictly increasing check order |
| Validation.ErrorsInCheckOrder | apps/producer/src/main/kotlin/br/com/itau/etl/producer/service/ValidationService.kt:20-50 | the errors are the broken rules' messages in strictly increasing check order, without duplicates |
| Validation.MultipleErrorsExample | apps/producer/src/main/kotlin/br/com/itau/etl/producer/service/ValidationService.kt:19-50 | the multiple-errors input gets amount, account, disabled-PIX and missing-PIX-data errors, in that order |
| FileProcessor.AfterLastSlash | apps/producer/src/main/kotlin/br/com/itau/etl/producer/service/S3Service.kt:74 | the file name has no slash and is a suffix of the key |
| FileProcessor.AfterLastSlashOf | apps/producer/src/main/kotlin/br/com/itau/etl/producer/service/S3Service.kt:74-75 | the name after a folder's last slash is recovered exactly; a key without a slash is kept whole |
| FileProcessor.PartitionCounts | apps/producer/src/main/kotlin/br/com/itau/etl/producer/service/FileProcessorService.kt:68-78 | valid plus invalid is the number of transactions read |
| FileProcessor.FilterValidConcat | apps/producer/src/main/kotlin/br/com/itau/etl/producer/service/FileProcessorService.kt:68-78 | the valid subset of a concatenation is the concatenation of the subsets, so input order is kept |
| FileProcessor.FilterValidMembers | apps/producer/src/main/kotlin/br/com/itau/etl/producer/service/FileProcessorService.kt:68-78 | a transaction is kept iff it is in the file and passes validation |
| FileProcessor.HighErrorRateIsRatio | apps/producer/src/main/kotlin/br/com/itau/etl/producer/service/FileProcessorService.kt:81-82 | the integer rule equals invalid/total > 0.1 over the reals; exactly 10% is not rejected |
| FileProcessor.SentPrefix | apps/producer/src/main/kotlin/br/com/itau/etl/producer/service/KafkaProducerService.kt:43-46 | the transactions handed over before a send throws are a prefix of the batch |
| FileProcessor.SentPrefixWhole | apps/producer/src/main/kotlin/br/com/itau/etl/producer/service/KafkaProducerService.kt:43-46 | the whole batch goes out iff no send throws |
| FileProcessor.SkipIffMarked | apps/producer/src/main/kotlin/br/com/itau/etl/producer/service/FileProcessorService.kt:50-53 | skipped iff the processed-files table answers yes, and a skip changes nothing |
| FileProcessor.EmptyFileRejected | apps/producer/src/main/kotlin/br/com/itau/etl/producer/service/FileProcessorService.kt:60-65 | an empty file is moved to `rejected/<name>` with "No valid transactions found", marked REJECTED, and nothing is sent |
| FileProcessor.HighErrorRateSendsNothing | apps/producer/src/main/kotlin/br/com/itau/etl/producer/service/FileProcessorService.kt:81-87 | above 10% invalid, nothing is sent; the file is rejected with the high-error-rate reason and marked REJECTED unless the move or the mark throws |
| FileProcessor.AcceptedFileSent | apps/producer/src/main/kotlin/br/com/itau/etl/producer/service/FileProcessorService.kt:89-97 | otherwise the valid subset is sent as one batch, in order, and the file is marked PROCESSED |
| FileProcessor.FailureMarksError | apps/producer/src/main/kotlin/br/com/itau/etl/producer/service/FileProcessorService.kt:99-106 | on any failure the file is marked ERROR unless that mark also throws, which is swallowed |
| FileProcessor.ProcessFileFrame | apps/producer/src/main/kotlin/br/com/itau/etl/producer/service/FileProcessorService.kt:47-107 | only this file's entries change; the input bucket keeps the file or loses exactly it; the topic only grows, by what this file sent; the file ends up with a mark unless the error mark failed |
| FileProcessor.RejectFrame | apps/producer/src/main/kotlin/br/com/itau/etl/producer/service/FileProcessorService.kt:60-65 | a rejection sends nothing, keeps other files' marks, removes at most this file from the input bucket, and leaves the file marked unless the error mark failed |
| FileProcessor.MarkErrorFrame | apps/producer/src/main/kotlin/br/com/itau/etl/producer/service/FileProcessorService.kt:99-106 | the error path sends nothing more, keeps the input bucket and other files' marks, and leaves the file marked unless the error mark itself failed |
| FileProcessor.RerunSkips | apps/producer/src/main/kotlin/br/com/itau/etl/producer/service/FileProcessorService.kt:50-53 | a file that got a mark is skipped, with no change, the next time |
| FileProcessor.ProcessFilesInOrder | apps/producer/src/main/kotlin/br/com/itau/etl/producer/service/FileProcessorService.kt:26-45 | one disposition per listed file, in order; the topic receives exactly their sends, in order; every file that got a mark stays marked |
| FileProcessor.FileProcessor.constructor | apps/producer/src/main/kotlin/br/com/itau/etl/producer/service/FileProcessorService.kt:9-22 | starts from the given tables, buckets, topic and collaborators |
| FileProcessor.FileProcessor.MoveToRejected | apps/producer/src/main/kotlin/br/com/itau/etl/producer/service/S3Service.kt:72-101 | the file leaves the input bucket and lands under `rejected/<name>` with the reason, or nothing changes |
| FileProcessor.FileProcessor.MarkFile | apps/producer/src/main/kotlin/br/com/itau/etl/producer/service/DynamoDbService.kt:39-58 | writes the status for the key, or throws and changes nothing |
| FileProcessor.FileProcessor.SendBatch | apps/producer/src/main/kotlin/br/com/itau/etl/producer/service/KafkaProducerService.kt:43-48 | sends in order until a send throws |
| FileProcessor.FileProcessor.PartitionValid | apps/producer/src/main/kotlin/br/com/itau/etl/producer/service/FileProcessorService.kt:68-78 | the loop's valid list and invalid count are the valid subset and the invalid count, summing to the input size |
| FileProcessor.FileProcessor.MarkError | apps/producer/src/main/kotlin/br/com/itau/etl/producer/service/FileProcessorService.kt:99-106 | the error path, as specified |
| FileProcessor.FileProcessor.Reject | apps/producer/src/main/kotlin/br/com/itau/etl/producer/service/FileProcessorService.kt:60-65 | the rejection path, as specified |
| FileProcessor.FileProcessor.ProcessFile | apps/producer/src/main/kotlin/br/com/itau/etl/producer/service/FileProcessorService.kt:47-107 | the disposition and the new state are those of the file rule |
| FileProcessor.FileProcessor.ProcessFiles | apps/producer/src/main/kotlin/br/com/itau/etl/producer/service/FileProcessorService.kt:26-45 | processes the listing in order, as the fold of the file rule |
| TransactionProcessor.NewTransactionProcessed | apps/consumer/src/main/kotlin/br/com/itau/etl/consumer/service/TransactionProcessorService.kt:30-46 | a new id gives a record copying every field, with status PROCESSED, and that record is exactly what is stored |
| TransactionProcessor.DuplicateRejected | apps/consumer/src/main/kotlin/br/com/itau/etl/consumer/service/TransactionProcessorService.kt:22-25 | a stored id fails with "Transaction already processed" and never gets a new PROCESSED record |
| TransactionProcessor.FailureSavesErrorRecord | apps/consumer/src/main/kotlin/br/com/itau/etl/consumer/service/TransactionProcessorService.kt:48-71 | every failure attempts an ERROR record with the same fields; if that save fails too, nothing changes and the original error propagates |
| TransactionProcessor.ProcessFrame | apps/consumer/src/main/kotlin/br/com/itau/etl/consumer/service/TransactionProcessorService.kt:19-72 | only the transaction's own id changes, and after a success it is stored with status PROCESSED |
| TransactionProcessor.DuplicateOverwritesRecord | apps/consumer/src/main/kotlin/br/com/itau/etl/consumer/service/TransactionProcessorService.kt:20-71 | as written, a duplicate of a PROCESSED record replaces it with an ERROR record |
| TransactionProcessor.ReplayExample | apps/consumer/src/main/kotlin/br/com/itau/etl/consumer/service/TransactionProcessorService.kt:20-71 | processing the same message twice leaves status ERROR in the table |
| TransactionProcessor.IdempotentReplay | apps/consumer/src/main/kotlin/br/com/itau/etl/consumer/service/TransactionProcessorService.kt:22-25 | with the duplicate rejected before the try block, a duplicate changes nothing and a replay keeps PROCESSED |
| TransactionProcessor.ReprocessSetsProcessed | apps/consumer/src/main/kotlin/br/com/itau/etl/consumer/service/TransactionProcessorService.kt:74-82 | the id's status becomes PROCESSED, its other fields and all other ids are unchanged; a failed update changes nothing and propagates |
| TransactionProcessor.TransactionStore.Exists | apps/consumer/src/main/kotlin/br/com/itau/etl/consumer/service/DynamoDbService.kt:53-69 | true exactly when the id is stored and the lookup succeeds |
| TransactionProcessor.TransactionStore.SaveTransaction | apps/consumer/src/main/kotlin/br/com/itau/etl/consumer/service/DynamoDbService.kt:24-51 | stores the whole record, or throws and changes nothing |
| TransactionProcessor.TransactionStore.UpdateTransactionStatus | apps/consumer/src/main/kotlin/br/com/itau/etl/consumer/service/DynamoDbService.kt:71-90 | sets the status (creating a status-only item for an absent id), or throws and changes nothing |
| TransactionProcessor.ProcessTransaction | apps/consumer/src/main/kotlin/br/com/itau/etl/consumer/service/TransactionProcessorService.kt:19-72 | result and table are those of processTransaction as written |
| TransactionProcessor.ProcessTransactionIdempotent | apps/consumer/src/main/kotlin/br/com/itau/etl/consumer/service/TransactionProcessorService.kt:19-72 | result and table are those of the corrected, idempotent specification |
| TransactionProcessor.ReprocessFailedTransaction | apps/consumer/src/main/kotlin/br/com/itau/etl/consumer/service/TransactionProcessorService.kt:74-82 | result and table are those of the reprocess specification |

## Left out

- Concurrency. The buffer is a `ConcurrentHashMap`, but the model is sequential, so the race between a flush's summary and a concurrent insert is not modelled.
- Kafka listeners, Spring scheduling, AWS client wrappers, metrics configuration and application bootstraps are wiring around the core and are not part of this model.
- The collaborators are modelled only as maps with failure sets: the S3 buckets, the two DynamoDB tables, the topic and the SSM parameter store.
  - The PIX flag is a boolean parameter; `ConfigurationService` answers false on error.
  - The bucket listing is a parameter, so its order and the `transactions/` prefix are taken as given.
  - A listing failure is the empty listing.
- Jackson serialisation. The JSON report body is the summary value itself, and file parsing is a map from file key to its transactions.
- BigDecimal and LocalDateTime rendering.
  - Amounts are `int` cents rendered at scale 2; BigDecimal values of other scales are not modelled.
  - `generatedAt` and `processedAt` are given strings.
- Years outside 1..9999, where `yyyy` would need more or fewer digits.
- Long and Int overflow on counts and sums.
- Text.Lower: lower-cases ASCII letters only, which covers every enum name the CSV lower-cases.
- FileProcessor.HighErrorRateIsRatio: the source compares a Double; `10 * invalid > total` is the exact rule, and floating-point rounding for very large files is not modelled.
- The high-error-rate rejection reason is kept as the pair of counts, from which the source computes its Double text; the text itself is not built.
- FileProcessor.SendBatch: only synchronous throws from `send` are modelled. Failures reported later through the asynchronous result are only logged by the source and do not affect the file's disposition.
- FileProcessor.MoveToRejected: the copy and the delete succeed or fail together. A copy that succeeds before a failed delete is not modelled.
- The `processed_at` and `updated_at` attributes written to DynamoDB are not modelled.
- Logging.

## Findings

| source | as written | input that shows it | evidently intended | confidence | as-written member | corrected member |
|---|---|---|---|---|---|---|
| apps/consumer/src/main/kotlin/br/com/itau/etl/consumer/service/TransactionProcessorService.kt:20-71 | the duplicate check throws inside the `try`, so the `catch` saves an ERROR record over the stored one before rethrowing | a message whose id is already stored with status PROCESSED, when the ERROR save succeeds: the stored record becomes ERROR | a duplicate fails with "Transaction already processed" and writes nothing, as TransactionProcessorServiceTest.kt:78 expects | not executed | TransactionProcessor.DuplicateOverwritesRecord | TransactionProcessor.ProcessTransactionIdempotent |
