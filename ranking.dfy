/** Kotlin's `sortedByDescending { it.totalAmount }` on account statistics:
    a stable sort, written as an insertion sort, and `take(n)`. */
module Ranking {
  import opened TransactionModel
  import Grouping

  predicate NonIncreasing(s: seq<AccountStats>)
  {
    forall i, j :: 0 <= i < j < |s| ==> s[i].totalAmount >= s[j].totalAmount
  }

  /** The entries of `s` whose total is `v`, in their order in `s`. */
  function WithTotal(s: seq<AccountStats>, v: int): seq<AccountStats>
  {
    if s == [] then [] else (if s[0].totalAmount == v then [s[0]] else []) + WithTotal(s[1..], v)
  }

  /** Places `x` after every entry whose total is at least its own. */
  function Insert(x: AccountStats, s: seq<AccountStats>): seq<AccountStats>
  {
    if s == [] then [x]
    else if s[0].totalAmount >= x.totalAmount then [s[0]] + Insert(x, s[1..])
    else [x] + s
  }

  function SortByTotalDesc(s: seq<AccountStats>): seq<AccountStats>
  {
    if s == [] then [] else Insert(s[|s| - 1], SortByTotalDesc(s[..|s| - 1]))
  }

  /** The first `n` entries, or all of them when there are fewer. */
  function Take(s: seq<AccountStats>, n: nat): (r: seq<AccountStats>)
    ensures |r| == if |s| < n then |s| else n
    ensures r == s[..|r|]
  {
    if |s| <= n then s else s[..n]
  }

  lemma {:induction false} InsertMultiset(x: AccountStats, s: seq<AccountStats>)
    ensures multiset(Insert(x, s)) == multiset(s) + multiset{x}
  {
    if s != [] && s[0].totalAmount >= x.totalAmount {
      InsertMultiset(x, s[1..]);
      assert s == [s[0]] + s[1..];
    }
  }

  lemma {:induction false} InsertNonIncreasing(x: AccountStats, s: seq<AccountStats>)
    requires NonIncreasing(s)
    ensures NonIncreasing(Insert(x, s))
  {
    if s != [] && s[0].totalAmount >= x.totalAmount {
      InsertNonIncreasing(x, s[1..]);
      var t := Insert(x, s[1..]);
      InsertMultiset(x, s[1..]);
      forall j | 0 <= j < |t| ensures s[0].totalAmount >= t[j].totalAmount {
        assert t[j] in multiset(t);
        assert t[j] == x || t[j] in s[1..];
      }
    }
  }

  lemma {:induction false} WithTotalNone(s: seq<AccountStats>, v: int)
    requires forall i :: 0 <= i < |s| ==> s[i].totalAmount < v
    ensures WithTotal(s, v) == []
  {
    if s != [] {
      WithTotalNone(s[1..], v);
    }
  }

  lemma {:induction false} WithTotalAppend(s: seq<AccountStats>, t: seq<AccountStats>, v: int)
    ensures WithTotal(s + t, v) == WithTotal(s, v) + WithTotal(t, v)
  {
    if s != [] {
      WithTotalAppend(s[1..], t, v);
      assert (s + t)[1..] == s[1..] + t;
    } else {
      assert s + t == t;
    }
  }

  /** Inserting into a sorted list puts `x` after every entry of equal total. */
  lemma {:induction false} InsertWithTotal(x: AccountStats, s: seq<AccountStats>, v: int)
    requires NonIncreasing(s)
    ensures WithTotal(Insert(x, s), v) == WithTotal(s, v) + (if x.totalAmount == v then [x] else [])
  {
    if s == [] {
    } else if s[0].totalAmount >= x.totalAmount {
      var t := Insert(x, s[1..]);
      assert NonIncreasing(s[1..]) by {
        forall i, j | 0 <= i < j < |s[1..]| ensures s[1..][i].totalAmount >= s[1..][j].totalAmount {
          assert s[1..][i] == s[i + 1] && s[1..][j] == s[j + 1];
        }
      }
      InsertWithTotal(x, s[1..], v);
      assert ([s[0]] + t)[0] == s[0] && ([s[0]] + t)[1..] == t;
    } else {
      assert ([x] + s)[0] == x && ([x] + s)[1..] == s;
      if x.totalAmount == v {
        forall i | 0 <= i < |s| ensures s[i].totalAmount < v {
          assert s[0].totalAmount >= s[i].totalAmount;
        }
        WithTotalNone(s, v);
      }
    }
  }

  lemma {:induction false} InsertNoDup(x: AccountStats, s: seq<AccountStats>)
    requires Grouping.NoDup(s) && x !in s
    ensures Grouping.NoDup(Insert(x, s))
  {
    if s != [] && s[0].totalAmount >= x.totalAmount {
      InsertNoDup(x, s[1..]);
      InsertMultiset(x, s[1..]);
      var t := Insert(x, s[1..]);
      assert s[0] !in s[1..];
      assert s[0] !in multiset(t);
    }
  }

  lemma {:induction false} SortMultiset(s: seq<AccountStats>)
    ensures multiset(SortByTotalDesc(s)) == multiset(s)
  {
    if s != [] {
      var init, x := s[..|s| - 1], s[|s| - 1];
      assert s == init + [x];
      SortMultiset(init);
      InsertMultiset(x, SortByTotalDesc(init));
    }
  }

  lemma {:induction false} SortNonIncreasing(s: seq<AccountStats>)
    ensures NonIncreasing(SortByTotalDesc(s))
  {
    if s != [] {
      var init, x := s[..|s| - 1], s[|s| - 1];
      SortNonIncreasing(init);
      InsertNonIncreasing(x, SortByTotalDesc(init));
    }
  }

  lemma {:induction false} SortStable(s: seq<AccountStats>, v: int)
    ensures WithTotal(SortByTotalDesc(s), v) == WithTotal(s, v)
  {
    if s != [] {
      var init, x := s[..|s| - 1], s[|s| - 1];
      var sorted := SortByTotalDesc(init);
      SortStable(init, v);
      SortNonIncreasing(init);
      InsertWithTotal(x, sorted, v);
      assert s == init + [x];
      WithTotalAppend(init, [x], v);
      assert [x][1..] == [];
      assert WithTotal([x], v) == (if x.totalAmount == v then [x] else []);
    }
  }

  lemma {:induction false} SortNoDup(s: seq<AccountStats>)
    requires Grouping.NoDup(s)
    ensures Grouping.NoDup(SortByTotalDesc(s))
  {
    if s != [] {
      var init, x := s[..|s| - 1], s[|s| - 1];
      var sorted := SortByTotalDesc(init);
      assert forall i :: 0 <= i < |init| ==> init[i] == s[i];
      assert Grouping.NoDup(init);
      SortNoDup(init);
      assert forall i :: 0 <= i < |init| ==> init[i] != x;
      assert x !in init;
      SortMultiset(init);
      assert x !in multiset(sorted);
      InsertNoDup(x, sorted);
    }
  }

  /** The sort is a permutation, non-increasing by total, keeps distinct
      entries distinct, and is stable: the entries of any one total keep
      their input order. */
  lemma SortByTotalDescCorrect(s: seq<AccountStats>)
    ensures multiset(SortByTotalDesc(s)) == multiset(s)
    ensures NonIncreasing(SortByTotalDesc(s))
    ensures forall v :: WithTotal(SortByTotalDesc(s), v) == WithTotal(s, v)
    ensures Grouping.NoDup(s) ==> Grouping.NoDup(SortByTotalDesc(s))
  {
    SortMultiset(s);
    SortNonIncreasing(s);
    forall v ensures WithTotal(SortByTotalDesc(s), v) == WithTotal(s, v) {
      SortStable(s, v);
    }
    if Grouping.NoDup(s) {
      SortNoDup(s);
    }
  }

  /** The entries of one total in a prefix are a prefix of those in the whole. */
  lemma {:induction false} WithTotalPrefix(s: seq<AccountStats>, n: nat, v: int)
    requires n <= |s|
    ensures WithTotal(s[..n], v) <= WithTotal(s, v)
  {
    assert s == s[..n] + s[n..];
    WithTotalAppend(s[..n], s[n..], v);
  }
}
