/** TransactionAggregatorService: the in-memory buffer from period key to
    the transactions received during that hour, and the operations on it. */
module Aggregator {
  import opened Outcomes
  import opened TransactionModel
  import opened PeriodKeys
  import SummaryCalculator

  /** getCurrentPeriod: the key of the hour `now`. */
  function CurrentPeriod(now: DateHour): (r: string)
    requires Printable(now)
    ensures ParsePeriodKey(r) == Some(now)
  {
    PeriodKeyRoundTrip(now);
    PeriodKey(now)
  }

  /** getPreviousPeriod: the key of the hour one hour before `now`. */
  function PreviousPeriod(now: DateHour): (r: string)
    requires Valid(now) && Printable(Previous(now))
    ensures exists d :: ParsePeriodKey(r) == Some(d) && Valid(d) && HourIndex(d) == HourIndex(now) - 1
  {
    PeriodKeyRoundTrip(Previous(now));
    PreviousIsOneHourEarlier(now);
    PeriodKey(Previous(now))
  }

  class TransactionAggregator {
    var buffer: map<string, seq<Transaction>>

    /** A list is created only to receive a transaction and is removed whole,
        so no buffered period is empty. */
    ghost predicate Valid()
      reads this
    {
      forall p :: p in buffer ==> |buffer[p]| > 0
    }

    constructor ()
      ensures Valid() && buffer == map[]
    {
      buffer := map[];
    }

    /** The list buffered for `period`, empty when there is none. */
    function Snapshot(period: string): (r: seq<Transaction>)
      reads this
      ensures period in buffer ==> r == buffer[period]
      ensures period !in buffer ==> r == []
    {
      if period in buffer then buffer[period] else []
    }

    /** getBufferStatus: exactly the buffered keys, each with its list's
        length; a read that changes nothing. */
    function BufferStatus(): (r: map<string, nat>)
      reads this
      ensures r.Keys == buffer.Keys
      ensures forall p :: p in r ==> r[p] == |buffer[p]|
    {
      map p | p in buffer :: |buffer[p]|
    }

    /** addTransaction: appends to the list of the insertion hour (not the
        transaction's own timestamp); that period's count goes up by one and
        every other period is unchanged. */
    method AddTransaction(tx: Transaction, now: DateHour)
      requires Valid() && Printable(now)
      modifies this
      ensures Valid()
      ensures buffer == old(buffer)[CurrentPeriod(now) := old(Snapshot(CurrentPeriod(now))) + [tx]]
      ensures BufferStatus() == old(BufferStatus())[CurrentPeriod(now) := |old(Snapshot(CurrentPeriod(now)))| + 1]
    {
      var period := CurrentPeriod(now);
      var list := if period in buffer then buffer[period] else [];
      buffer := buffer[period := list + [tx]];
    }

    /** generateSummary: absent exactly when nothing is buffered for the
        period, otherwise the summary of its list. */
    function GenerateSummary(period: string, generatedAt: string): (r: Option<TransactionSummary>)
      reads this
      requires Valid()
      ensures r.None? <==> period !in buffer
      ensures r.Some? ==> r == SummaryCalculator.Summarize(period, buffer[period], generatedAt)
    {
      SummaryCalculator.Summarize(period, Snapshot(period), generatedAt)
    }

    /** clearPeriod: removes `period` and nothing else; clearing an absent
        period changes nothing. */
    method ClearPeriod(period: string)
      requires Valid()
      modifies this
      ensures Valid()
      ensures buffer == old(buffer) - {period}
      ensures period !in BufferStatus() && forall g :: GenerateSummary(period, g).None?
      ensures period !in old(buffer) ==> buffer == old(buffer)
    {
      buffer := buffer - {period};
    }
  }
}
