/** Kotlin's `groupBy` followed by a per-group count and `sumOf`, over a
    list of (key, amount) entries. Groups come out in first-seen key order,
    which is the iteration order of the LinkedHashMap `groupBy` builds. */
module Grouping {

  predicate NoDup<K(==,!new)>(ks: seq<K>)
  {
    forall i, j :: 0 <= i < j < |ks| ==> ks[i] != ks[j]
  }

  function Keys<K, V>(s: seq<(K, V)>): (r: seq<K>)
    ensures |r| == |s| && forall i :: 0 <= i < |s| ==> r[i] == s[i].0
  {
    seq(|s|, i requires 0 <= i < |s| => s[i].0)
  }

  /** The keys of `ks`, each once, in the order of their first occurrence. */
  function Distinct<K(==,!new)>(ks: seq<K>): (r: seq<K>)
    ensures NoDup(r)
    ensures forall k :: k in r <==> k in ks
  {
    if ks == [] then []
    else
      var init := Distinct(ks[..|ks| - 1]);
      assert ks == ks[..|ks| - 1] + [ks[|ks| - 1]];
      if ks[|ks| - 1] in init then init else init + [ks[|ks| - 1]]
  }

  /** The index of the first occurrence of `k` in `ks`. */
  function FirstIndex<K(==,!new)>(ks: seq<K>, k: K): (n: nat)
    requires k in ks
    ensures n < |ks| && ks[n] == k && k !in ks[..n]
  {
    var init := ks[..|ks| - 1];
    if k in init then
      var n := FirstIndex(init, k);
      assert ks[..n] == init[..n];
      n
    else
      assert ks[..|ks| - 1] == init;
      |ks| - 1
  }

  /** Distinct keeps keys in first-seen order. */
  lemma {:induction false} DistinctFirstSeen<K(!new)>(ks: seq<K>)
    ensures forall i, j :: 0 <= i < j < |Distinct(ks)| ==>
              FirstIndex(ks, Distinct(ks)[i]) < FirstIndex(ks, Distinct(ks)[j])
  {
    if ks != [] {
      var init := ks[..|ks| - 1];
      var x := ks[|ks| - 1];
      DistinctFirstSeen(init);
      var d := Distinct(init);
      forall y | y in init
        ensures FirstIndex(ks, y) == FirstIndex(init, y)
      {
      }
      if x !in d {
        assert FirstIndex(ks, x) == |ks| - 1;
      }
    }
  }

  /** Number of entries carrying key `k`. */
  function Count<K(==,!new)>(s: seq<(K, int)>, k: K): nat
  {
    if s == [] then 0 else Count(s[..|s| - 1], k) + (if s[|s| - 1].0 == k then 1 else 0)
  }

  /** Sum of the amounts of the entries carrying key `k`. */
  function Total<K(==,!new)>(s: seq<(K, int)>, k: K): int
  {
    if s == [] then 0 else Total(s[..|s| - 1], k) + (if s[|s| - 1].0 == k then s[|s| - 1].1 else 0)
  }

  /** Sum of all amounts. */
  function Sum<K(==,!new)>(s: seq<(K, int)>): int
  {
    if s == [] then 0 else Sum(s[..|s| - 1]) + s[|s| - 1].1
  }

  datatype Group<K> = Group(key: K, count: nat, total: int)

  function GroupsOf<K(==,!new)>(ks: seq<K>, s: seq<(K, int)>): (r: seq<Group<K>>)
    ensures |r| == |ks|
    ensures forall i :: 0 <= i < |ks| ==>
              r[i].key == ks[i] && r[i].count == Count(s, ks[i]) && r[i].total == Total(s, ks[i])
  {
    if ks == [] then [] else [Group(ks[0], Count(s, ks[0]), Total(s, ks[0]))] + GroupsOf(ks[1..], s)
  }

  /** One group per observed key, in first-seen order, each holding that
      key's count (never zero) and total. */
  function GroupBy<K(==,!new)>(s: seq<(K, int)>): (r: seq<Group<K>>)
    ensures |r| == |Distinct(Keys(s))|
    ensures forall i :: 0 <= i < |r| ==>
              r[i].key == Distinct(Keys(s))[i] && r[i].count == Count(s, r[i].key) > 0
              && r[i].total == Total(s, r[i].key)
  {
    var ks := Distinct(Keys(s));
    forall k | k in ks ensures Count(s, k) > 0 {
      CountPositive(s, k);
    }
    GroupsOf(ks, s)
  }

  function GroupKeys<K(==,!new)>(gs: seq<Group<K>>): (r: seq<K>)
    ensures |r| == |gs| && forall i :: 0 <= i < |gs| ==> r[i] == gs[i].key
  {
    seq(|gs|, i requires 0 <= i < |gs| => gs[i].key)
  }

  function SumCounts<K(==,!new)>(gs: seq<Group<K>>): nat
  {
    if gs == [] then 0 else gs[0].count + SumCounts(gs[1..])
  }

  function SumTotals<K(==,!new)>(gs: seq<Group<K>>): int
  {
    if gs == [] then 0 else gs[0].total + SumTotals(gs[1..])
  }

  /** A key that occurs is counted at least once. */
  lemma {:induction false} CountPositive<K(!new)>(s: seq<(K, int)>, k: K)
    requires k in Keys(s)
    ensures Count(s, k) > 0
  {
    var init := s[..|s| - 1];
    if s[|s| - 1].0 != k {
      var i :| 0 <= i < |s| && s[i].0 == k;
      assert init[i].0 == k;
      CountPositive(init, k);
    }
  }

  /** Key `k` counts and sums exactly the entries it labels; with no entry
      labelled `k` both are zero. */
  lemma {:induction false} CountAbsent<K(!new)>(s: seq<(K, int)>, k: K)
    requires k !in Keys(s)
    ensures Count(s, k) == 0 && Total(s, k) == 0
  {
    if s != [] {
      assert s[|s| - 1].0 != k;
      var init := s[..|s| - 1];
      assert forall i :: 0 <= i < |init| ==> init[i].0 == s[i].0 != k;
      CountAbsent(init, k);
    }
  }

  lemma {:induction false} GroupsOfEmpty<K(!new)>(ks: seq<K>)
    ensures SumCounts(GroupsOf(ks, [])) == 0 && SumTotals(GroupsOf(ks, [])) == 0
  {
    if ks != [] {
      GroupsOfEmpty(ks[1..]);
    }
  }

  /** Appending an entry adds it to exactly the group of its key, if any. */
  lemma {:induction false} GroupsOfSnoc<K(!new)>(ks: seq<K>, s: seq<(K, int)>, x: (K, int))
    requires NoDup(ks)
    ensures SumCounts(GroupsOf(ks, s + [x])) == SumCounts(GroupsOf(ks, s)) + (if x.0 in ks then 1 else 0)
    ensures SumTotals(GroupsOf(ks, s + [x])) == SumTotals(GroupsOf(ks, s)) + (if x.0 in ks then x.1 else 0)
  {
    if ks != [] {
      assert (s + [x])[..|s|] == s;
      GroupsOfSnoc(ks[1..], s, x);
      assert x.0 in ks <==> x.0 == ks[0] || x.0 in ks[1..];
      assert ks[0] !in ks[1..];
    }
  }

  /** Groups over distinct keys covering every entry partition the entries:
      their counts add up to the number of entries and their totals to the
      sum of all amounts. */
  lemma {:induction false} GroupsOfPartition<K(!new)>(ks: seq<K>, s: seq<(K, int)>)
    requires NoDup(ks)
    requires forall i :: 0 <= i < |s| ==> s[i].0 in ks
    ensures SumCounts(GroupsOf(ks, s)) == |s|
    ensures SumTotals(GroupsOf(ks, s)) == Sum(s)
  {
    if s == [] {
      GroupsOfEmpty(ks);
    } else {
      var init := s[..|s| - 1];
      var x := s[|s| - 1];
      assert init + [x] == s;
      assert forall i :: 0 <= i < |init| ==> init[i] == s[i];
      GroupsOfPartition(ks, init);
      GroupsOfSnoc(ks, init, x);
      assert x.0 in ks;
    }
  }

  /** The counts of GroupBy add up to the number of entries and its totals
      to the sum of all amounts. */
  lemma GroupByPartition<K(!new)>(s: seq<(K, int)>)
    ensures SumCounts(GroupBy(s)) == |s|
    ensures SumTotals(GroupBy(s)) == Sum(s)
  {
    var ks := Distinct(Keys(s));
    forall i | 0 <= i < |s| ensures s[i].0 in ks {
      assert Keys(s)[i] == s[i].0;
    }
    GroupsOfPartition(ks, s);
  }

  /** GroupBy has exactly one group per observed key. */
  lemma GroupByKeys<K(!new)>(s: seq<(K, int)>)
    ensures NoDup(GroupKeys(GroupBy(s)))
    ensures forall k :: k in GroupKeys(GroupBy(s)) <==> exists i :: 0 <= i < |s| && s[i].0 == k
  {
    var gs := GroupBy(s);
    assert GroupKeys(gs) == Distinct(Keys(s));
    forall k ensures k in Keys(s) <==> exists i :: 0 <= i < |s| && s[i].0 == k {
      if k in Keys(s) {
        var i :| 0 <= i < |s| && Keys(s)[i] == k;
        assert s[i].0 == k;
      }
    }
  }
}
