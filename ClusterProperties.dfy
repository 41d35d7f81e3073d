/**
 * What `_cluster` guarantees about its output: the clusters partition the
 * events by key, each count is the size of its group, the counts add up to
 * the number of events, the sample is the earliest event of its group, the
 * timestamps are in ascending order, and the clusters come by descending
 * count with ties in the order their keys were first seen.
 */
module ClusterProperties {
  import opened JsonValues
  import opened StringOrder
  import opened LogPreprocessor
  import opened Sequences

  // ---------------------------------------------------------------------
  // The timestamp sort
  // ---------------------------------------------------------------------

  ghost predicate SortedByTime(s: seq<Event>) {
    forall p, q :: 0 <= p < q < |s| ==> LexLe(TsKey(s[p]), TsKey(s[q]))
  }

  lemma InsertByTimeMember(x: Event, t: seq<Event>, e: Event)
    requires e in InsertByTime(x, t)
    ensures e == x || e in t
  {
    assert e in multiset(InsertByTime(x, t));
  }

  lemma {:induction false} InsertByTimeSorted(x: Event, t: seq<Event>)
    requires SortedByTime(t)
    ensures SortedByTime(InsertByTime(x, t))
    decreases |t|
  {
    if t == [] {
    } else if !LexLe(TsKey(t[0]), TsKey(x)) {
      LexLeTotal(TsKey(t[0]), TsKey(x));
      var r := [x] + t;
      assert InsertByTime(x, t) == r;
      forall p, q | 0 <= p < q < |r|
        ensures LexLe(TsKey(r[p]), TsKey(r[q]))
      {
        if p == 0 {
          if q > 1 {
            LexLeTransitive(TsKey(x), TsKey(t[0]), TsKey(t[q - 1]));
          }
        } else {
          assert r[p] == t[p - 1] && r[q] == t[q - 1];
        }
      }
    } else {
      var tail := t[1..];
      assert SortedByTime(tail) by {
        forall p, q | 0 <= p < q < |tail|
          ensures LexLe(TsKey(tail[p]), TsKey(tail[q]))
        {
          assert tail[p] == t[p + 1] && tail[q] == t[q + 1];
        }
      }
      InsertByTimeSorted(x, tail);
      var rest := InsertByTime(x, tail);
      var r := [t[0]] + rest;
      assert InsertByTime(x, t) == r;
      forall p, q | 0 <= p < q < |r|
        ensures LexLe(TsKey(r[p]), TsKey(r[q]))
      {
        if p == 0 {
          var e := rest[q - 1];
          InsertByTimeMember(x, tail, e);
          if e != x {
            var j :| 0 <= j < |tail| && tail[j] == e;
            assert t[j + 1] == e;
          }
        } else {
          assert r[p] == rest[p - 1] && r[q] == rest[q - 1];
        }
      }
    }
  }

  /** The stable sort of a cluster's events puts them in ascending timestamp order. */
  lemma {:induction false} SortByTimeSorted(s: seq<Event>)
    ensures SortedByTime(SortByTime(s))
    decreases |s|
  {
    if s != [] {
      SortByTimeSorted(s[..|s| - 1]);
      InsertByTimeSorted(s[|s| - 1], SortByTime(s[..|s| - 1]));
    }
  }

  /** `s[i]` has the smallest timestamp, and every earlier event a strictly larger one. */
  ghost predicate EarliestAt(s: seq<Event>, i: int) {
    && 0 <= i < |s|
    && (forall j :: 0 <= j < |s| ==> LexLe(TsKey(s[i]), TsKey(s[j])))
    && (forall j :: 0 <= j < i ==> !LexLe(TsKey(s[j]), TsKey(s[i])))
  }

  /** A last event strictly earlier than the earliest of the others is the earliest of all. */
  lemma EarliestIsLast(s: seq<Event>, i0: int)
    requires |s| >= 2 && EarliestAt(s[..|s| - 1], i0)
    requires !LexLe(TsKey(s[i0]), TsKey(s[|s| - 1]))
    ensures EarliestAt(s, |s| - 1)
  {
    var n := |s|;
    var prefix := s[..n - 1];
    var x := s[n - 1];
    var h := prefix[i0];
    LexLeTotal(TsKey(h), TsKey(x));
    forall j | 0 <= j < n
      ensures LexLe(TsKey(x), TsKey(s[j]))
    {
      if j == n - 1 {
        LexLeReflexive(TsKey(x));
      } else {
        assert s[j] == prefix[j];
        LexLeTransitive(TsKey(x), TsKey(h), TsKey(s[j]));
      }
    }
    forall j | 0 <= j < n - 1
      ensures !LexLe(TsKey(s[j]), TsKey(x))
    {
      assert s[j] == prefix[j];
      if LexLe(TsKey(s[j]), TsKey(x)) {
        LexLeTransitive(TsKey(h), TsKey(s[j]), TsKey(x));
      }
    }
  }

  /** Otherwise the earliest of the others stays the earliest of all. */
  lemma EarliestStays(s: seq<Event>, i0: int)
    requires |s| >= 2 && EarliestAt(s[..|s| - 1], i0)
    requires LexLe(TsKey(s[i0]), TsKey(s[|s| - 1]))
    ensures EarliestAt(s, i0)
  {
    var n := |s|;
    var prefix := s[..n - 1];
    forall j | 0 <= j < n
      ensures LexLe(TsKey(s[i0]), TsKey(s[j]))
    {
      if j < n - 1 {
        assert s[j] == prefix[j];
      }
    }
    forall j | 0 <= j < i0
      ensures !LexLe(TsKey(s[j]), TsKey(s[i0]))
    {
      assert s[j] == prefix[j];
    }
  }

  /** The first element of the stable sort is the first event with the smallest timestamp. */
  lemma {:induction false} SortByTimeHead(s: seq<Event>)
    requires s != []
    ensures exists i :: EarliestAt(s, i) && SortByTime(s)[0] == s[i]
    decreases |s|
  {
    var n := |s|;
    var prefix := s[..n - 1];
    var x := s[n - 1];
    if prefix == [] {
      assert SortByTime(s) == InsertByTime(x, []);
      LexLeReflexive(TsKey(x));
      assert EarliestAt(s, 0);
    } else {
      SortByTimeHead(prefix);
      var i0 :| EarliestAt(prefix, i0) && SortByTime(prefix)[0] == prefix[i0];
      assert s[i0] == prefix[i0];
      var sorted := SortByTime(prefix);
      assert SortByTime(s) == InsertByTime(x, sorted);
      if !LexLe(TsKey(sorted[0]), TsKey(x)) {
        EarliestIsLast(s, i0);
        assert SortByTime(s)[0] == x;
      } else {
        EarliestStays(s, i0);
        assert SortByTime(s)[0] == sorted[0];
      }
    }
  }

  // ---------------------------------------------------------------------
  // The count sort
  // ---------------------------------------------------------------------

  ghost predicate KeysDistinct(cs: seq<Cluster>) {
    forall p, q :: 0 <= p < q < |cs| ==> ClusterKey(cs[p]) != ClusterKey(cs[q])
  }

  /** The position of `k` in `ks` (|ks| when absent). */
  function IndexOf(ks: seq<Key>, k: Key): (r: nat)
    ensures r <= |ks|
    ensures r < |ks| ==> ks[r] == k
    ensures forall j :: 0 <= j < r ==> ks[j] != k
    decreases |ks|
  {
    if ks == [] then 0
    else if ks[0] == k then 0
    else 1 + IndexOf(ks[1..], k)
  }

  lemma IndexOfDistinct(ks: seq<Key>, j: nat)
    requires j < |ks| && Distinct(ks)
    ensures IndexOf(ks, ks[j]) == j
  {
  }

  /** Descending count; equal counts keep the order in which their keys were first seen. */
  ghost predicate ByCountThenFirstSeen(cs: seq<Cluster>, ks: seq<Key>) {
    forall p, q :: 0 <= p < q < |cs| ==>
      cs[p].count > cs[q].count
      || (cs[p].count == cs[q].count && IndexOf(ks, ClusterKey(cs[p])) < IndexOf(ks, ClusterKey(cs[q])))
  }

  /** `c` may precede every element of `r`. */
  ghost predicate GoesBefore(c: Cluster, r: seq<Cluster>, ks: seq<Key>) {
    forall j :: 0 <= j < |r| ==>
      c.count > r[j].count
      || (c.count == r[j].count && IndexOf(ks, ClusterKey(c)) < IndexOf(ks, ClusterKey(r[j])))
  }

  lemma PrependOrdered(c: Cluster, r: seq<Cluster>, ks: seq<Key>)
    requires ByCountThenFirstSeen(r, ks) && GoesBefore(c, r, ks)
    ensures ByCountThenFirstSeen([c] + r, ks)
  {
    var s := [c] + r;
    forall p, q | 0 <= p < q < |s|
      ensures s[p].count > s[q].count
        || (s[p].count == s[q].count && IndexOf(ks, ClusterKey(s[p])) < IndexOf(ks, ClusterKey(s[q])))
    {
      assert s[q] == r[q - 1];
      if p > 0 {
        assert s[p] == r[p - 1];
      }
    }
  }

  lemma TailOrdered(t: seq<Cluster>, ks: seq<Key>)
    requires t != [] && ByCountThenFirstSeen(t, ks)
    ensures ByCountThenFirstSeen(t[1..], ks) && GoesBefore(t[0], t[1..], ks)
  {
    var tail := t[1..];
    forall p, q | 0 <= p < q < |tail|
      ensures tail[p].count > tail[q].count
        || (tail[p].count == tail[q].count && IndexOf(ks, ClusterKey(tail[p])) < IndexOf(ks, ClusterKey(tail[q])))
    {
      assert tail[p] == t[p + 1] && tail[q] == t[q + 1];
    }
    forall j | 0 <= j < |tail|
      ensures t[0].count > tail[j].count
        || (t[0].count == tail[j].count && IndexOf(ks, ClusterKey(t[0])) < IndexOf(ks, ClusterKey(tail[j])))
    {
      assert tail[j] == t[j + 1];
    }
  }

  lemma {:induction false} InsertByCountOrdered(x: Cluster, t: seq<Cluster>, ks: seq<Key>)
    requires ByCountThenFirstSeen(t, ks)
    requires forall j :: 0 <= j < |t| ==> IndexOf(ks, ClusterKey(t[j])) < IndexOf(ks, ClusterKey(x))
    ensures ByCountThenFirstSeen(InsertByCount(x, t), ks)
    decreases |t|
  {
    if t == [] {
    } else if x.count > t[0].count {
      TailOrdered(t, ks);
      forall j | 0 <= j < |t|
        ensures x.count > t[j].count
      {
        if j > 0 {
          assert t[1..][j - 1] == t[j];
        }
      }
      PrependOrdered(x, t, ks);
    } else {
      var tail := t[1..];
      TailOrdered(t, ks);
      forall j | 0 <= j < |tail|
        ensures IndexOf(ks, ClusterKey(tail[j])) < IndexOf(ks, ClusterKey(x))
      {
        assert tail[j] == t[j + 1];
      }
      InsertByCountOrdered(x, tail, ks);
      var rest := InsertByCount(x, tail);
      forall j | 0 <= j < |rest|
        ensures t[0].count > rest[j].count
          || (t[0].count == rest[j].count && IndexOf(ks, ClusterKey(t[0])) < IndexOf(ks, ClusterKey(rest[j])))
      {
        var c := rest[j];
        assert c in rest;
        if c != x {
          var i :| 0 <= i < |tail| && tail[i] == c;
        }
      }
      PrependOrdered(t[0], rest, ks);
    }
  }

  lemma {:induction false} SortByCountOrdered(s: seq<Cluster>, ks: seq<Key>)
    requires forall p, q :: 0 <= p < q < |s| ==> IndexOf(ks, ClusterKey(s[p])) < IndexOf(ks, ClusterKey(s[q]))
    ensures ByCountThenFirstSeen(SortByCount(s), ks)
    decreases |s|
  {
    if s != [] {
      var n := |s|;
      var prefix := s[..n - 1];
      var sorted := SortByCount(prefix);
      SortByCountOrdered(prefix, ks);
      SortedBeforeLast(s, sorted, ks);
      InsertByCountOrdered(s[n - 1], sorted, ks);
    }
  }

  /** Every cluster before the last one was first seen before it, and sorting keeps that. */
  lemma SortedBeforeLast(s: seq<Cluster>, sorted: seq<Cluster>, ks: seq<Key>)
    requires s != [] && sorted == SortByCount(s[..|s| - 1])
    requires forall p, q :: 0 <= p < q < |s| ==> IndexOf(ks, ClusterKey(s[p])) < IndexOf(ks, ClusterKey(s[q]))
    ensures forall j :: 0 <= j < |sorted| ==> IndexOf(ks, ClusterKey(sorted[j])) < IndexOf(ks, ClusterKey(s[|s| - 1]))
  {
    var prefix := s[..|s| - 1];
    forall j | 0 <= j < |sorted|
      ensures IndexOf(ks, ClusterKey(sorted[j])) < IndexOf(ks, ClusterKey(s[|s| - 1]))
    {
      assert sorted[j] in sorted;
      var p :| 0 <= p < |prefix| && prefix[p] == sorted[j];
      assert s[p] == sorted[j];
    }
  }

  lemma {:induction false} InsertByCountKeysDistinct(x: Cluster, t: seq<Cluster>)
    requires KeysDistinct(t)
    requires forall j :: 0 <= j < |t| ==> ClusterKey(t[j]) != ClusterKey(x)
    ensures KeysDistinct(InsertByCount(x, t))
    decreases |t|
  {
    if t == [] {
    } else if x.count > t[0].count {
      var r := [x] + t;
      assert InsertByCount(x, t) == r;
      forall p, q | 0 <= p < q < |r|
        ensures ClusterKey(r[p]) != ClusterKey(r[q])
      {
        assert r[q] == t[q - 1];
        if p > 0 {
          assert r[p] == t[p - 1];
        }
      }
    } else {
      var tail := t[1..];
      assert KeysDistinct(tail) by {
        forall p, q | 0 <= p < q < |tail|
          ensures ClusterKey(tail[p]) != ClusterKey(tail[q])
        {
          assert tail[p] == t[p + 1] && tail[q] == t[q + 1];
        }
      }
      InsertByCountKeysDistinct(x, tail);
      var rest := InsertByCount(x, tail);
      var r := [t[0]] + rest;
      assert InsertByCount(x, t) == r;
      forall p, q | 0 <= p < q < |r|
        ensures ClusterKey(r[p]) != ClusterKey(r[q])
      {
        if p == 0 {
          var c := rest[q - 1];
          assert c in rest;
          if c != x {
            var j :| 0 <= j < |tail| && tail[j] == c;
            assert t[j + 1] == c;
          }
        } else {
          assert r[p] == rest[p - 1] && r[q] == rest[q - 1];
        }
      }
    }
  }

  lemma {:induction false} SortByCountKeysDistinct(s: seq<Cluster>)
    requires KeysDistinct(s)
    ensures KeysDistinct(SortByCount(s))
    decreases |s|
  {
    if s != [] {
      var n := |s|;
      var prefix := s[..n - 1];
      assert KeysDistinct(prefix) by {
        forall p, q | 0 <= p < q < |prefix|
          ensures ClusterKey(prefix[p]) != ClusterKey(prefix[q])
        {
          assert prefix[p] == s[p] && prefix[q] == s[q];
        }
      }
      SortByCountKeysDistinct(prefix);
      var sorted := SortByCount(prefix);
      forall j | 0 <= j < |sorted|
        ensures ClusterKey(sorted[j]) != ClusterKey(s[n - 1])
      {
        assert sorted[j] in sorted;
        var p :| 0 <= p < |prefix| && prefix[p] == sorted[j];
        assert s[p] == sorted[j];
      }
      InsertByCountKeysDistinct(s[n - 1], sorted);
    }
  }

  function SumCounts(cs: seq<Cluster>): nat
    decreases |cs|
  {
    if cs == [] then 0 else cs[0].count + SumCounts(cs[1..])
  }

  lemma {:induction false} SumCountsSnoc(cs: seq<Cluster>, c: Cluster)
    ensures SumCounts(cs + [c]) == SumCounts(cs) + c.count
    decreases |cs|
  {
    if cs != [] {
      assert (cs + [c])[1..] == cs[1..] + [c];
      SumCountsSnoc(cs[1..], c);
    }
  }

  lemma {:induction false} InsertByCountSum(x: Cluster, t: seq<Cluster>)
    ensures SumCounts(InsertByCount(x, t)) == x.count + SumCounts(t)
    decreases |t|
  {
    if t != [] && x.count <= t[0].count {
      InsertByCountSum(x, t[1..]);
      assert ([t[0]] + InsertByCount(x, t[1..]))[1..] == InsertByCount(x, t[1..]);
    } else if t != [] {
      assert ([x] + t)[1..] == t;
    }
  }

  lemma {:induction false} SortByCountSum(s: seq<Cluster>)
    ensures SumCounts(SortByCount(s)) == SumCounts(s)
    decreases |s|
  {
    if s != [] {
      var init, last := s[..|s| - 1], s[|s| - 1];
      SortByCountSum(init);
      SortByCountSumStep(s);
      assert init + [last] == s;
      SumCountsSnoc(init, last);
    }
  }

  lemma SortByCountSumStep(s: seq<Cluster>)
    requires s != []
    ensures SumCounts(SortByCount(s)) == SumCounts(SortByCount(s[..|s| - 1])) + s[|s| - 1].count
  {
    InsertByCountSum(s[|s| - 1], SortByCount(s[..|s| - 1]));
  }

  // ---------------------------------------------------------------------
  // Groups
  // ---------------------------------------------------------------------

  /** The number of times `k` occurs in `ks`. */
  function Occurrences(ks: seq<Key>, k: Key): nat
    decreases |ks|
  {
    if ks == [] then 0
    else Occurrences(ks[..|ks| - 1], k) + (if ks[|ks| - 1] == k then 1 else 0)
  }

  lemma {:induction false} OccurrencesDistinct(ks: seq<Key>, k: Key)
    requires Distinct(ks)
    ensures Occurrences(ks, k) == if k in ks then 1 else 0
    decreases |ks|
  {
    if ks != [] {
      var prefix := ks[..|ks| - 1];
      assert Distinct(prefix) by {
        forall p, q | 0 <= p < q < |prefix|
          ensures prefix[p] != prefix[q]
        {
          assert prefix[p] == ks[p] && prefix[q] == ks[q];
        }
      }
      OccurrencesDistinct(prefix, k);
      assert ks == prefix + [ks[|ks| - 1]];
    }
  }

  /** The total size of the groups of the keys `ks`. */
  function SumMembers(logs: seq<Event>, ks: seq<Key>): nat
    decreases |ks|
  {
    if ks == [] then 0
    else SumMembers(logs, ks[..|ks| - 1]) + |Members(logs, ks[|ks| - 1])|
  }

  lemma {:induction false} SumMembersGrow(logs: seq<Event>, ks: seq<Key>)
    requires logs != []
    ensures SumMembers(logs, ks) ==
      SumMembers(logs[..|logs| - 1], ks) + Occurrences(ks, KeyOf(logs[|logs| - 1]))
    decreases |ks|
  {
    if ks != [] {
      SumMembersGrow(logs, ks[..|ks| - 1]);
    }
  }

  /** A new key's group is the one event that introduced it. */
  lemma NewKeyGroup(logs: seq<Event>)
    requires logs != []
    requires KeyOf(logs[|logs| - 1]) !in FirstSeenKeys(logs[..|logs| - 1])
    ensures FirstSeenKeys(logs) == FirstSeenKeys(logs[..|logs| - 1]) + [KeyOf(logs[|logs| - 1])]
    ensures |Members(logs, KeyOf(logs[|logs| - 1]))| == 1
  {
    KeysSeen(logs[..|logs| - 1], KeyOf(logs[|logs| - 1]));
  }

  lemma SumMembersSnoc(logs: seq<Event>, ks: seq<Key>, k: Key)
    ensures SumMembers(logs, ks + [k]) == SumMembers(logs, ks) + |Members(logs, k)|
  {
    assert (ks + [k])[..|ks|] == ks;
  }

  /** One more event: its key's group grows by one, or a new key comes with a group of one. */
  lemma SumMembersStep(logs: seq<Event>)
    requires logs != []
    requires SumMembers(logs[..|logs| - 1], FirstSeenKeys(logs[..|logs| - 1])) == |logs| - 1
    ensures SumMembers(logs, FirstSeenKeys(logs)) == |logs|
  {
    var prefix := logs[..|logs| - 1];
    var ks := FirstSeenKeys(prefix);
    var k := KeyOf(logs[|logs| - 1]);
    FirstSeenKeysDistinct(prefix);
    OccurrencesDistinct(ks, k);
    SumMembersGrow(logs, ks);
    if k !in ks {
      NewKeyGroup(logs);
      SumMembersSnoc(logs, ks, k);
    }
  }

  lemma {:induction false} SumMembersOfAllKeys(logs: seq<Event>)
    ensures SumMembers(logs, FirstSeenKeys(logs)) == |logs|
    decreases |logs|
  {
    if logs != [] {
      SumMembersOfAllKeys(logs[..|logs| - 1]);
      SumMembersStep(logs);
    }
  }

  lemma {:induction false} SumCountsInKeyOrder(logs: seq<Event>, ks: seq<Key>)
    requires forall k :: k in ks ==> Members(logs, k) != []
    ensures SumCounts(ClustersInKeyOrder(logs, ks)) == SumMembers(logs, ks)
    decreases |ks|
  {
    if ks != [] {
      var m := |ks|;
      var prefix := ks[..m - 1];
      assert forall k :: k in prefix ==> k in ks;
      SumCountsInKeyOrder(logs, prefix);
      assert prefix + [ks[m - 1]] == ks;
      ClustersInKeyOrderSnoc(logs, prefix, ks[m - 1]);
      SumCountsSnoc(ClustersInKeyOrder(logs, prefix), MakeCluster(ks[m - 1], Members(logs, ks[m - 1])));
    }
  }

  // ---------------------------------------------------------------------
  // What `_cluster` promises
  // ---------------------------------------------------------------------

  /** Before sorting, the j-th cluster belongs to the j-th first-seen key. */
  lemma InKeyOrderKeys(logs: seq<Event>)
    ensures FirstSeenKeysHaveMembersFact(logs)
    ensures var ks := FirstSeenKeys(logs);
      forall j :: 0 <= j < |ks| ==> ClusterKey(ClustersInKeyOrder(logs, ks)[j]) == ks[j]
  {
    FirstSeenKeysHaveMembers(logs);
  }

  ghost predicate FirstSeenKeysHaveMembersFact(logs: seq<Event>) {
    forall k :: k in FirstSeenKeys(logs) ==> Members(logs, k) != []
  }

  /** No two clusters share a (java class, message) key. */
  lemma ClusterKeysDistinct(logs: seq<Event>)
    ensures KeysDistinct(Clusters(logs))
  {
    var ks := FirstSeenKeys(logs);
    InKeyOrderKeys(logs);
    FirstSeenKeysDistinct(logs);
    var u := ClustersInKeyOrder(logs, ks);
    assert KeysDistinct(u) by {
      forall p, q | 0 <= p < q < |u|
        ensures ClusterKey(u[p]) != ClusterKey(u[q])
      {
        assert ClusterKey(u[p]) == ks[p] && ClusterKey(u[q]) == ks[q];
      }
    }
    SortByCountKeysDistinct(u);
  }

  /** Every cluster is the group of its own key: its count is the group's size and it is built from that group. */
  lemma ClusterIsGroup(logs: seq<Event>, c: Cluster)
    requires c in Clusters(logs)
    ensures ClusterKey(c) in KeySet(logs)
    ensures Members(logs, ClusterKey(c)) != []
    ensures c == MakeCluster(ClusterKey(c), Members(logs, ClusterKey(c)))
    ensures c.count == |Members(logs, ClusterKey(c))| > 0
  {
    var ks := FirstSeenKeys(logs);
    InKeyOrderKeys(logs);
    var u := ClustersInKeyOrder(logs, ks);
    assert c in u;
    var j :| 0 <= j < |u| && u[j] == c;
    KeysSeen(logs, ks[j]);
  }

  /** Every event falls in exactly one cluster: the one of its key. */
  lemma EveryEventClustered(logs: seq<Event>, i: nat)
    requires i < |logs|
    ensures exists p :: 0 <= p < |Clusters(logs)| && ClusterKey(Clusters(logs)[p]) == KeyOf(logs[i])
    ensures forall p, q :: 0 <= p < q < |Clusters(logs)| ==>
      !(ClusterKey(Clusters(logs)[p]) == KeyOf(logs[i]) && ClusterKey(Clusters(logs)[q]) == KeyOf(logs[i]))
  {
    var k := KeyOf(logs[i]);
    var ks := FirstSeenKeys(logs);
    KeySetHas(logs, i);
    KeysSeen(logs, k);
    InKeyOrderKeys(logs);
    var u := ClustersInKeyOrder(logs, ks);
    var j :| 0 <= j < |ks| && ks[j] == k;
    assert u[j] in u;
    assert u[j] in Clusters(logs);
    ClusterKeysDistinct(logs);
  }

  lemma {:induction false} KeySetHas(logs: seq<Event>, i: nat)
    requires i < |logs|
    ensures KeyOf(logs[i]) in KeySet(logs)
    decreases |logs|
  {
    if i < |logs| - 1 {
      KeySetHas(logs[..|logs| - 1], i);
    }
  }

  /** The cluster counts add up to the number of events. */
  lemma ClusterCountsSum(logs: seq<Event>)
    ensures SumCounts(Clusters(logs)) == |logs|
  {
    var ks := FirstSeenKeys(logs);
    FirstSeenKeysHaveMembers(logs);
    SortByCountSum(ClustersInKeyOrder(logs, ks));
    SumCountsInKeyOrder(logs, ks);
    SumMembersOfAllKeys(logs);
  }

  /** Clusters come by descending count; equal counts keep first-seen order. */
  lemma ClustersOrdered(logs: seq<Event>)
    ensures ByCountThenFirstSeen(Clusters(logs), FirstSeenKeys(logs))
  {
    var ks := FirstSeenKeys(logs);
    InKeyOrderKeys(logs);
    FirstSeenKeysDistinct(logs);
    var u := ClustersInKeyOrder(logs, ks);
    forall p, q | 0 <= p < q < |u|
      ensures IndexOf(ks, ClusterKey(u[p])) < IndexOf(ks, ClusterKey(u[q]))
    {
      IndexOfDistinct(ks, p);
      IndexOfDistinct(ks, q);
    }
    SortByCountOrdered(u, ks);
  }

  /** The sample is the first event of the group with the smallest timestamp. */
  lemma SampleIsEarliest(logs: seq<Event>, c: Cluster)
    requires c in Clusters(logs)
    ensures exists i :: EarliestAt(Members(logs, ClusterKey(c)), i) && c.sample == Members(logs, ClusterKey(c))[i]
  {
    ClusterIsGroup(logs, c);
    SortByTimeHead(Members(logs, ClusterKey(c)));
  }

  /** The timestamps list one entry per event of the group, in ascending order. */
  lemma TimestampsAscending(logs: seq<Event>, c: Cluster)
    requires c in Clusters(logs)
    ensures |c.timestamps| == c.count
    ensures forall p, q :: 0 <= p < q < |c.timestamps| ==> LexLe(Text(c.timestamps[p]), Text(c.timestamps[q]))
  {
    ClusterIsGroup(logs, c);
    SortByTimeSorted(Members(logs, ClusterKey(c)));
  }
}
