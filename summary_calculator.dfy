/** The summary computation of TransactionAggregatorService.generateSummary:
    a pure function of one period's transaction list (plus the clock
    reading stamped into `generatedAt`). */
module SummaryCalculator {
  import opened Outcomes
  import opened TransactionModel
  import G = Grouping
  import R = Ranking

  /** How many accounts the summary ranks. */
  const TopAccountsLimit: nat := 10

  /** The exact sum of the amounts (`sumOf { it.amount }`). */
  function AmountSum(txs: seq<Transaction>): int
  {
    if txs == [] then 0 else AmountSum(txs[..|txs| - 1]) + txs[|txs| - 1].amount
  }

  /** Each transaction as a (type, amount) entry, for grouping by type. */
  function TypeEntries(txs: seq<Transaction>): (r: seq<(TransactionType, int)>)
    ensures |r| == |txs| && forall i :: 0 <= i < |txs| ==> r[i] == (txs[i].ttype, txs[i].amount)
  {
    seq(|txs|, i requires 0 <= i < |txs| => (txs[i].ttype, txs[i].amount))
  }

  /** Each transaction as an (account, amount) entry, for grouping by account. */
  function AccountEntries(txs: seq<Transaction>): (r: seq<(string, int)>)
    ensures |r| == |txs| && forall i :: 0 <= i < |txs| ==> r[i] == (txs[i].accountId, txs[i].amount)
  {
    seq(|txs|, i requires 0 <= i < |txs| => (txs[i].accountId, txs[i].amount))
  }

  /** `filter { it.type == PIX }`. */
  function PixTransactions(txs: seq<Transaction>): (r: seq<Transaction>)
    ensures forall i :: 0 <= i < |r| ==> r[i].ttype == PIX && r[i] in txs
  {
    if txs == [] then []
    else
      var init := PixTransactions(txs[..|txs| - 1]);
      var x := txs[|txs| - 1];
      assert forall t :: t in txs[..|txs| - 1] ==> t in txs;
      if x.ttype == PIX then init + [x] else init
  }

  /** `mapNotNull { it.pixData?.pixKeyType }`, as entries for grouping. */
  function PixKeyEntries(pix: seq<Transaction>): seq<(PixKeyType, int)>
  {
    if pix == [] then []
    else
      var init := PixKeyEntries(pix[..|pix| - 1]);
      var x := pix[|pix| - 1];
      match x.pixData
      case Some(d) => init + [(d.pixKeyType, 0)]
      case None => init
  }

  /** BigDecimal division of `num` by `den` to the same scale with
      RoundingMode.HALF_UP: the nearest integer, ties away from zero. */
  function RoundHalfUp(num: int, den: int): (r: int)
    requires den > 0
    ensures num >= 0 ==> -den < 2 * (r * den - num) <= den
    ensures num < 0 ==> -den <= 2 * (r * den - num) < den
  {
    if num >= 0 then
      var q := (2 * num + den) / (2 * den);
      assert 2 * den * q <= 2 * num + den < 2 * den * q + 2 * den;
      q
    else
      var q := (2 * -num + den) / (2 * den);
      assert 2 * den * q <= 2 * -num + den < 2 * den * q + 2 * den;
      -q
  }

  /** The average guarded as in the source: zero for an empty group. */
  function Average(total: int, count: nat): int
  {
    if count > 0 then RoundHalfUp(total, count) else 0
  }

  function TypeStatsOf(gs: seq<G.Group<TransactionType>>): (r: seq<(TransactionType, TransactionTypeStats)>)
    ensures |r| == |gs|
    ensures forall i :: 0 <= i < |gs| ==>
              r[i] == (gs[i].key, TransactionTypeStats(gs[i].count, gs[i].total, Average(gs[i].total, gs[i].count)))
  {
    seq(|gs|, i requires 0 <= i < |gs| =>
      (gs[i].key, TransactionTypeStats(gs[i].count, gs[i].total, Average(gs[i].total, gs[i].count))))
  }

  /** `transactionsByType`: the per-type statistics in first-seen type order. */
  function TypeBreakdown(txs: seq<Transaction>): seq<(TransactionType, TransactionTypeStats)>
  {
    TypeStatsOf(G.GroupBy(TypeEntries(txs)))
  }

  function AccountStatsOf(gs: seq<G.Group<string>>): (r: seq<AccountStats>)
    ensures |r| == |gs|
    ensures forall i :: 0 <= i < |gs| ==> r[i] == AccountStats(gs[i].key, gs[i].count, gs[i].total)
  {
    seq(|gs|, i requires 0 <= i < |gs| => AccountStats(gs[i].key, gs[i].count, gs[i].total))
  }

  /** Per-account statistics in first-seen account order (before ranking). */
  function AccountTotals(txs: seq<Transaction>): seq<AccountStats>
  {
    AccountStatsOf(G.GroupBy(AccountEntries(txs)))
  }

  /** `topAccounts`: ranked by total, descending and stable, first ten. */
  function TopAccounts(txs: seq<Transaction>): seq<AccountStats>
  {
    R.Take(R.SortByTotalDesc(AccountTotals(txs)), TopAccountsLimit)
  }

  function KeyCountsOf(gs: seq<G.Group<PixKeyType>>): (r: seq<(PixKeyType, nat)>)
    ensures |r| == |gs|
    ensures forall i :: 0 <= i < |gs| ==> r[i] == (gs[i].key, gs[i].count)
  {
    seq(|gs|, i requires 0 <= i < |gs| => (gs[i].key, gs[i].count))
  }

  /** `pixStats`. */
  function PixStatsOf(txs: seq<Transaction>): PixStats
  {
    var pix := PixTransactions(txs);
    PixStats(|pix|, AmountSum(pix), KeyCountsOf(G.GroupBy(PixKeyEntries(pix))))
  }

  /** generateSummary on the list read for `period`: absent for an empty
      list, never an empty summary. */
  function Summarize(period: string, txs: seq<Transaction>, generatedAt: string): (r: Option<TransactionSummary>)
    ensures r.None? <==> txs == []
    ensures r.Some? ==> r.value.period == period && r.value.generatedAt == generatedAt
  {
    if txs == [] then None
    else Some(TransactionSummary(
      period := period,
      totalTransactions := |txs|,
      totalAmount := AmountSum(txs),
      transactionsByType := TypeBreakdown(txs),
      topAccounts := TopAccounts(txs),
      pixStats := PixStatsOf(txs),
      generatedAt := generatedAt))
  }

  // ----- Properties -----

  function TypeCountSum(m: seq<(TransactionType, TransactionTypeStats)>): nat
  {
    if m == [] then 0 else m[0].1.count + TypeCountSum(m[1..])
  }

  function TypeTotalSum(m: seq<(TransactionType, TransactionTypeStats)>): int
  {
    if m == [] then 0 else m[0].1.totalAmount + TypeTotalSum(m[1..])
  }

  function KeyCountSum(m: seq<(PixKeyType, nat)>): nat
  {
    if m == [] then 0 else m[0].1 + KeyCountSum(m[1..])
  }

  lemma {:induction false} TypeSumsOfGroups(gs: seq<G.Group<TransactionType>>)
    ensures TypeCountSum(TypeStatsOf(gs)) == G.SumCounts(gs)
    ensures TypeTotalSum(TypeStatsOf(gs)) == G.SumTotals(gs)
  {
    if gs != [] {
      TypeSumsOfGroups(gs[1..]);
      assert TypeStatsOf(gs)[1..] == TypeStatsOf(gs[1..]);
    }
  }

  lemma {:induction false} KeySumsOfGroups(gs: seq<G.Group<PixKeyType>>)
    ensures KeyCountSum(KeyCountsOf(gs)) == G.SumCounts(gs)
  {
    if gs != [] {
      KeySumsOfGroups(gs[1..]);
      assert KeyCountsOf(gs)[1..] == KeyCountsOf(gs[1..]);
    }
  }

  lemma {:induction false} TypeEntriesSum(txs: seq<Transaction>)
    ensures G.Sum(TypeEntries(txs)) == AmountSum(txs)
  {
    if txs != [] {
      TypeEntriesSum(txs[..|txs| - 1]);
      assert TypeEntries(txs)[..|txs| - 1] == TypeEntries(txs[..|txs| - 1]);
    }
  }

  /** The per-type counts add up to the number of transactions and the
      per-type totals to the total amount, exactly. */
  lemma TypeTotalsConsistent(period: string, txs: seq<Transaction>, generatedAt: string)
    requires txs != []
    ensures var s := Summarize(period, txs, generatedAt).value;
            s.totalTransactions == |txs|
            && TypeCountSum(s.transactionsByType) == s.totalTransactions
            && TypeTotalSum(s.transactionsByType) == s.totalAmount
  {
    var gs := G.GroupBy(TypeEntries(txs));
    G.GroupByPartition(TypeEntries(txs));
    TypeSumsOfGroups(gs);
    TypeEntriesSum(txs);
  }

  /** `transactionsByType` has one entry per observed type and no other;
      each entry holds that type's count and exact total, with the average
      the half-up rounding of total / count (the count is never zero). */
  lemma TypeBreakdownCorrect(txs: seq<Transaction>)
    ensures var m := TypeBreakdown(txs);
            && G.NoDup(G.Keys(m))
            && (forall t :: t in G.Keys(m) <==> exists i :: 0 <= i < |txs| && txs[i].ttype == t)
            && (forall i :: 0 <= i < |m| ==>
                  && m[i].1.count == G.Count(TypeEntries(txs), m[i].0) > 0
                  && m[i].1.totalAmount == G.Total(TypeEntries(txs), m[i].0)
                  && m[i].1.averageAmount == RoundHalfUp(m[i].1.totalAmount, m[i].1.count))
  {
    var es := TypeEntries(txs);
    var gs := G.GroupBy(es);
    var m := TypeBreakdown(txs);
    G.GroupByKeys(es);
    assert G.Keys(m) == G.GroupKeys(gs);
  }

  /** The half-up average of the source's test: 100.00 and 200.00 average to
      150.00, and a tie such as 0.005 rounds away from zero. */
  lemma AverageExamples()
    ensures Average(30000, 2) == 15000
    ensures RoundHalfUp(1, 2) == 1 && RoundHalfUp(-1, 2) == -1
  {
  }

  lemma {:induction false} AccountEntriesSum(txs: seq<Transaction>)
    ensures G.Sum(AccountEntries(txs)) == AmountSum(txs)
  {
    if txs != [] {
      AccountEntriesSum(txs[..|txs| - 1]);
      assert AccountEntries(txs)[..|txs| - 1] == AccountEntries(txs[..|txs| - 1]);
    }
  }

  function AccountIds(s: seq<AccountStats>): (r: seq<string>)
    ensures |r| == |s| && forall i :: 0 <= i < |s| ==> r[i] == s[i].accountId
  {
    seq(|s|, i requires 0 <= i < |s| => s[i].accountId)
  }

  /** The per-account statistics: one per distinct account, in first-seen
      order, each with that account's count and exact total. */
  lemma AccountTotalsCorrect(txs: seq<Transaction>)
    ensures var accs := AccountTotals(txs);
            && AccountIds(accs) == G.Distinct(G.Keys(AccountEntries(txs)))
            && (forall i :: 0 <= i < |accs| ==>
                  accs[i].transactionCount == G.Count(AccountEntries(txs), accs[i].accountId) > 0
                  && accs[i].totalAmount == G.Total(AccountEntries(txs), accs[i].accountId))
            && G.NoDup(accs)
  {
    var accs := AccountTotals(txs);
    var ids := G.Distinct(G.Keys(AccountEntries(txs)));
    assert AccountIds(accs) == ids;
    forall i, j | 0 <= i < j < |accs| ensures accs[i] != accs[j] {
      assert ids[i] != ids[j];
    }
  }

  /** Every ranked entry is one of the per-account statistics. */
  lemma RankedFromTotals(txs: seq<Transaction>)
    ensures var sorted := R.SortByTotalDesc(AccountTotals(txs));
            && |sorted| == |AccountTotals(txs)|
            && TopAccounts(txs) == sorted[..|TopAccounts(txs)|]
            && (forall a :: a in sorted <==> a in AccountTotals(txs))
            && R.NonIncreasing(sorted)
            && G.NoDup(sorted)
            && (forall v :: R.WithTotal(sorted, v) == R.WithTotal(AccountTotals(txs), v))
  {
    var accs := AccountTotals(txs);
    var sorted := R.SortByTotalDesc(accs);
    AccountTotalsCorrect(txs);
    R.SortByTotalDescCorrect(accs);
    assert |sorted| == |accs| by {
      assert |multiset(sorted)| == |multiset(accs)|;
    }
    forall a ensures a in sorted <==> a in accs {
      assert a in sorted <==> a in multiset(sorted);
      assert a in accs <==> a in multiset(accs);
    }
  }

  /** `topAccounts` has at most ten entries, at most one per account, and
      each holds its account's exact count and total. */
  lemma TopAccountsCorrect(txs: seq<Transaction>)
    ensures var top := TopAccounts(txs);
            var accs := AccountTotals(txs);
            && |top| == (if |accs| < TopAccountsLimit then |accs| else TopAccountsLimit)
            && |accs| == |G.Distinct(G.Keys(AccountEntries(txs)))|
            && (forall i :: 0 <= i < |top| ==>
                  top[i].transactionCount == G.Count(AccountEntries(txs), top[i].accountId) > 0
                  && top[i].totalAmount == G.Total(AccountEntries(txs), top[i].accountId))
            && (forall i, j :: 0 <= i < j < |top| ==> top[i].accountId != top[j].accountId)
  {
    var accs := AccountTotals(txs);
    var sorted := R.SortByTotalDesc(accs);
    var top := TopAccounts(txs);
    AccountTotalsCorrect(txs);
    RankedFromTotals(txs);
    forall i | 0 <= i < |top|
      ensures top[i].transactionCount == G.Count(AccountEntries(txs), top[i].accountId) > 0
      ensures top[i].totalAmount == G.Total(AccountEntries(txs), top[i].accountId)
    {
      assert top[i] == sorted[i] && sorted[i] in accs;
      var k :| 0 <= k < |accs| && accs[k] == sorted[i];
    }
    forall i, j | 0 <= i < j < |top| ensures top[i].accountId != top[j].accountId {
      assert top[i] == sorted[i] && top[j] == sorted[j];
      assert sorted[i] != sorted[j];
    }
  }

  /** `topAccounts` is ranked by total, descending; no account left out has a
      larger total than a ranked one; and entries of equal total keep the
      first-seen account order (the sort is stable). */
  lemma TopAccountsRanked(txs: seq<Transaction>)
    ensures var top := TopAccounts(txs);
            var accs := AccountTotals(txs);
            && R.NonIncreasing(top)
            && (forall a, i :: a in accs && a !in top && 0 <= i < |top| ==> a.totalAmount <= top[i].totalAmount)
            && (forall v :: R.WithTotal(top, v) <= R.WithTotal(accs, v))
  {
    var accs := AccountTotals(txs);
    var sorted := R.SortByTotalDesc(accs);
    var top := TopAccounts(txs);
    RankedFromTotals(txs);
    forall a, i | a in accs && a !in top && 0 <= i < |top|
      ensures a.totalAmount <= top[i].totalAmount
    {
      var k :| 0 <= k < |sorted| && sorted[k] == a;
      assert forall m :: 0 <= m < |top| ==> top[m] == sorted[m];
      assert k >= |top|;
      assert top[i] == sorted[i];
    }
    forall v ensures R.WithTotal(top, v) <= R.WithTotal(accs, v) {
      R.WithTotalPrefix(sorted, |top|, v);
    }
  }

  lemma {:induction false} PixCountsAgree(txs: seq<Transaction>)
    ensures |PixTransactions(txs)| == G.Count(TypeEntries(txs), PIX)
    ensures AmountSum(PixTransactions(txs)) == G.Total(TypeEntries(txs), PIX)
  {
    if txs != [] {
      var init := txs[..|txs| - 1];
      PixCountsAgree(init);
      assert TypeEntries(txs)[..|txs| - 1] == TypeEntries(init);
      var x := txs[|txs| - 1];
      if x.ttype == PIX {
        var p := PixTransactions(init) + [x];
        assert p[..|p| - 1] == PixTransactions(init);
      }
    }
  }

  function WithPixData(pix: seq<Transaction>): nat
  {
    if pix == [] then 0 else WithPixData(pix[..|pix| - 1]) + (if pix[|pix| - 1].pixData.Some? then 1 else 0)
  }

  lemma {:induction false} PixKeyEntriesLength(pix: seq<Transaction>)
    ensures |PixKeyEntries(pix)| == WithPixData(pix) <= |pix|
    ensures WithPixData(pix) == |pix| <==> forall i :: 0 <= i < |pix| ==> pix[i].pixData.Some?
  {
    if pix != [] {
      var init := pix[..|pix| - 1];
      PixKeyEntriesLength(init);
      if WithPixData(pix) == |pix| {
        assert WithPixData(init) == |init|;
        forall i | 0 <= i < |pix| ensures pix[i].pixData.Some? {
          if i < |init| { assert init[i] == pix[i]; }
        }
      }
      if forall i :: 0 <= i < |pix| ==> pix[i].pixData.Some? {
        assert forall i :: 0 <= i < |init| ==> init[i] == pix[i];
      }
    }
  }

  /** PIX statistics: the PIX count and amount are those of the PIX entry of
      the per-type breakdown, counted whether or not `pixData` is present; the
      key-type counts cover exactly the PIX transactions with `pixData`, so
      they add up to the PIX count precisely when every PIX transaction has
      it, and to less otherwise. */
  lemma PixStatsCorrect(txs: seq<Transaction>)
    ensures var ps := PixStatsOf(txs);
            var pix := PixTransactions(txs);
            && ps.totalPixTransactions == G.Count(TypeEntries(txs), PIX)
            && ps.totalPixAmount == G.Total(TypeEntries(txs), PIX)
            && KeyCountSum(ps.pixByKeyType) == WithPixData(pix) <= ps.totalPixTransactions
            && (KeyCountSum(ps.pixByKeyType) == ps.totalPixTransactions
                <==> forall i :: 0 <= i < |pix| ==> pix[i].pixData.Some?)
  {
    var pix := PixTransactions(txs);
    PixCountsAgree(txs);
    var es := PixKeyEntries(pix);
    G.GroupByPartition(es);
    KeySumsOfGroups(G.GroupBy(es));
    PixKeyEntriesLength(pix);
  }

  /** Only `generatedAt` depends on the clock: summaries of the same list
      agree on every other field. */
  lemma SummaryDeterministic(period: string, txs: seq<Transaction>, g1: string, g2: string)
    requires txs != []
    ensures Summarize(period, txs, g1).value.(generatedAt := g2) == Summarize(period, txs, g2).value
  {
  }
}
