/**
 * What the triage stage guarantees: how the oracle's classifications are
 * filed (a later item replaces an earlier one, and `int(idx)` failing on any
 * item fails the run), that there is one result per cluster in cluster
 * order, how the service is filled in, and how the clusters are batched.
 */
module TriageProperties {
  import opened JsonValues
  import opened Sequences
  import opened LogText
  import opened Triage

  // ---------------------------------------------------------------------
  // Filing the classifications
  // ---------------------------------------------------------------------

  ghost predicate SomeFailure(items: seq<Json>) {
    exists j :: 0 <= j < |items| && FilingOf(items[j]).Fail?
  }

  /** Some item is filed under key k. */
  ghost predicate Files(items: seq<Json>, k: int) {
    exists j :: 0 <= j < |items| && FilingOf(items[j]) == File(k)
  }

  /** Item j is the last one filed under key k. */
  ghost predicate LastFiling(items: seq<Json>, k: int, j: int) {
    0 <= j < |items| && items[j].JObj? && FilingOf(items[j]) == File(k) &&
    forall j' :: j < j' < |items| ==> FilingOf(items[j']) != File(k)
  }

  /** Filing fails exactly when `int(idx)` fails on some item. */
  lemma {:induction false} FileItemsFailsIff(t: map<int, Obj>, items: seq<Json>)
    ensures FileItems(t, items).None? <==> SomeFailure(items)
    decreases |items|
  {
    if items != [] {
      var n := |items|;
      var p := items[..n - 1];
      FileItemsFailsIff(t, p);
      SomeFailureSnoc(items);
    }
  }

  /** Some item fails iff one before the last fails or the last one does. */
  lemma SomeFailureSnoc(items: seq<Json>)
    requires items != []
    ensures SomeFailure(items) <==> SomeFailure(items[..|items| - 1]) || FilingOf(items[|items| - 1]).Fail?
  {
    var n := |items|;
    var p := items[..n - 1];
    if SomeFailure(p) {
      var j :| 0 <= j < |p| && FilingOf(p[j]).Fail?;
      assert items[j] == p[j];
    }
    if SomeFailure(items) && !FilingOf(items[n - 1]).Fail? {
      var j :| 0 <= j < n && FilingOf(items[j]).Fail?;
      assert p[j] == items[j];
    }
  }

  /** The keys of the filed table: the initial ones and those some item is filed under. */
  lemma {:induction false} FileItemsKeys(t: map<int, Obj>, items: seq<Json>)
    requires FileItems(t, items).Some?
    ensures forall k :: k in FileItems(t, items).value <==> k in t || Files(items, k)
    ensures forall k :: k in t && !Files(items, k) ==> FileItems(t, items).value[k] == t[k]
    decreases |items|
  {
    if items != [] {
      var n := |items|;
      var p := items[..n - 1];
      FileItemsKeys(t, p);
      forall k | Files(p, k)
        ensures Files(items, k)
      {
        var j :| 0 <= j < |p| && FilingOf(p[j]) == File(k);
        assert items[j] == p[j];
      }
      forall k | Files(items, k) && FilingOf(items[n - 1]) != File(k)
        ensures Files(p, k)
      {
        var j :| 0 <= j < n && FilingOf(items[j]) == File(k);
        assert p[j] == items[j];
      }
    }
  }

  /** The value filed under a key is the classification of the last item filed under it. */
  lemma {:induction false} FileItemsLastWins(t: map<int, Obj>, items: seq<Json>)
    requires FileItems(t, items).Some?
    ensures forall k, j :: LastFiling(items, k, j) ==>
      k in FileItems(t, items).value && FileItems(t, items).value[k] == TriageOf(items[j].fields)
    decreases |items|
  {
    if items != [] {
      var n := |items|;
      var p := items[..n - 1];
      FileItemsLastWins(t, p);
      forall k, j | LastFiling(items, k, j) && j < n - 1
        ensures LastFiling(p, k, j)
      {
        assert p[j] == items[j];
        forall j' | j < j' < |p|
          ensures FilingOf(p[j']) != File(k)
        {
          assert p[j'] == items[j'];
        }
      }
    }
  }

  /** An item whose index is None, or that is not a dict, leaves the table as it was. */
  lemma SkippedItem(t: map<int, Obj>, items: seq<Json>, item: Json)
    requires !item.JObj? || Get(item.fields, "idx") == JNull
    ensures FileItems(t, items + [item]) == FileItems(t, items)
  {
    assert (items + [item])[..|items|] == items;
  }

  // ---------------------------------------------------------------------
  // The results
  // ---------------------------------------------------------------------

  /** The last iteration of the result loop, on its own. */
  lemma AssembleLast(sha1: Sha1, t: map<int, Obj>, clusters: seq<Obj>)
    requires clusters != []
    ensures Assemble(sha1, t, clusters) ==
      match Assemble(sha1, t, clusters[..|clusters| - 1])
      case None => None
      case Some(st) => AssembleStep(sha1, st, clusters[|clusters| - 1], |clusters| - 1)
  {
  }

  /** A result that agrees with its lookup keeps agreeing as the loop appends more. */
  lemma LinkForExtends(t: map<int, Obj>, st: Assembly, st': Assembly, c: Obj, i: nat)
    requires LinkFor(t, st, c, i)
    requires |st.links| <= |st'.links| && st'.links[..|st.links|] == st.links
    requires |st.results| <= |st'.results| && st'.results[..|st.results|] == st.results
    ensures LinkFor(t, st', c, i)
  {
    assert st'.links[i] == st'.links[..|st.links|][i];
    assert st'.results[i] == st'.results[..|st.results|][i];
  }

  ghost predicate SomeBadIndex(clusters: seq<Obj>) {
    exists i :: 0 <= i < |clusters| && KeyAt(clusters[i], i).None?
  }

  /** A bad index is in the last cluster or among the ones before it. */
  lemma SomeBadIndexSnoc(clusters: seq<Obj>)
    requires clusters != []
    ensures SomeBadIndex(clusters) <==>
      SomeBadIndex(clusters[..|clusters| - 1]) || KeyAt(clusters[|clusters| - 1], |clusters| - 1).None?
  {
    var n := |clusters|;
    var p := clusters[..n - 1];
    if SomeBadIndex(p) {
      var i :| 0 <= i < |p| && KeyAt(p[i], i).None?;
      assert clusters[i] == p[i];
    }
    if SomeBadIndex(clusters) && KeyAt(clusters[n - 1], n - 1).Some? {
      var i :| 0 <= i < n && KeyAt(clusters[i], i).None?;
      assert p[i] == clusters[i];
    }
  }

  /** The result loop fails at the last cluster or before it. */
  lemma AssembleFailsSnoc(sha1: Sha1, t: map<int, Obj>, clusters: seq<Obj>)
    requires clusters != []
    ensures Assemble(sha1, t, clusters).None? <==>
      Assemble(sha1, t, clusters[..|clusters| - 1]).None? || KeyAt(clusters[|clusters| - 1], |clusters| - 1).None?
  {
    AssembleLast(sha1, t, clusters);
  }

  /** The result loop fails exactly when `int(idx)` fails on some cluster. */
  lemma {:induction false} AssembleFailsIff(sha1: Sha1, t: map<int, Obj>, clusters: seq<Obj>)
    ensures Assemble(sha1, t, clusters).None? <==> SomeBadIndex(clusters)
    decreases |clusters|
  {
    if clusters != [] {
      AssembleFailsIff(sha1, t, clusters[..|clusters| - 1]);
      AssembleFailsSnoc(sha1, t, clusters);
      SomeBadIndexSnoc(clusters);
    }
  }

  /** The service the result loop reports for a cluster: from its `raw` sample. */
  function ResultService(c: Obj): Json {
    ServiceOf(SampleSource(c, "raw"), c)
  }

  /** Entry e is the result for cluster c at position i, whatever its classification. */
  ghost predicate EntryFor(sha1: Sha1, e: Obj, c: Obj, i: nat) {
    "idx" in e && e["idx"] == ClusterIdx(c, i) &&
    "signature" in e && e["signature"] == JStr(Signature(sha1, Get(c, "java_class"), Get(c, "message"))) &&
    "service" in e && e["service"] == ResultService(c) &&
    "java_class" in e && e["java_class"] == Get(c, "java_class") &&
    "message" in e && e["message"] == Get(c, "message") &&
    "count" in e && e["count"] == Get(c, "count") &&
    "stack_excerpt" in e && e["stack_excerpt"] == JStr(StackExcerpt(Text(GetOr(SampleSource(c, "raw"), "log", JStr(""))))) &&
    "triage" in e && e["triage"].JObj? && "service" in e["triage"].fields
  }

  /** Every dict a result refers to is in the table and carries a service. */
  ghost predicate LinksResolve(st: Assembly) {
    forall i :: 0 <= i < |st.links| && st.links[i].Some? ==>
      st.links[i].value in st.table && "service" in st.table[st.links[i].value]
  }

  /** What the result loop keeps: one entry per cluster, and every shared dict carries a service. */
  ghost predicate AssemblyShape(sha1: Sha1, st: Assembly, clusters: seq<Obj>) {
    |st.results| == |clusters| && |st.links| == |clusters| &&
    (forall i :: 0 <= i < |clusters| ==> EntryFor(sha1, st.results[i], clusters[i], i)) &&
    LinksResolve(st)
  }

  lemma EntryShape(sha1: Sha1, c: Obj, i: nat, triage: Obj)
    ensures EntryFor(sha1, ResultEntry(sha1, c, ClusterIdx(c, i), triage), c, i)
  {
  }

  lemma AssembleStepShape(sha1: Sha1, st: Assembly, c: Obj, i: nat)
    requires |st.links| == i && |st.results| == i && LinksResolve(st)
    requires AssembleStep(sha1, st, c, i).Some?
    ensures LinksResolve(AssembleStep(sha1, st, c, i).value)
    ensures |AssembleStep(sha1, st, c, i).value.links| == i + 1
    ensures |AssembleStep(sha1, st, c, i).value.results| == i + 1
    ensures AssembleStep(sha1, st, c, i).value.results[..i] == st.results
    ensures EntryFor(sha1, AssembleStep(sha1, st, c, i).value.results[i], c, i)
  {
    var k := KeyAt(c, i).value;
    EntryShape(sha1, c, i, Lookup(st.table, k));
    var st' := AssembleStep(sha1, st, c, i).value;
    forall l | 0 <= l < |st'.links| && st'.links[l].Some?
      ensures st'.links[l].value in st'.table && "service" in st'.table[st'.links[l].value]
    {
      if l < i {
        assert st'.links[l] == st.links[l];
      }
    }
  }

  lemma {:induction false} AssembleKeepsShape(sha1: Sha1, t: map<int, Obj>, clusters: seq<Obj>)
    requires Assemble(sha1, t, clusters).Some?
    ensures AssemblyShape(sha1, Assemble(sha1, t, clusters).value, clusters)
    decreases |clusters|
  {
    if clusters != [] {
      var n := |clusters|;
      var p := clusters[..n - 1];
      AssembleLast(sha1, t, clusters);
      AssembleKeepsShape(sha1, t, p);
      var st := Assemble(sha1, t, p).value;
      AssembleStepShape(sha1, st, clusters[n - 1], n - 1);
      var st' := AssembleStep(sha1, st, clusters[n - 1], n - 1).value;
      assert Assemble(sha1, t, clusters).value == st';
      forall i | 0 <= i < n
        ensures EntryFor(sha1, st'.results[i], clusters[i], i)
      {
        if i < n - 1 {
          assert st'.results[i] == st'.results[..n - 1][i] == st.results[i];
          assert clusters[i] == p[i];
        }
      }
    }
  }

  /** The written results: one per cluster, in cluster order, each with the cluster's fields. */
  lemma WrittenShape(sha1: Sha1, t: map<int, Obj>, clusters: seq<Obj>)
    requires Assemble(sha1, t, clusters).Some?
    ensures |Written(Assemble(sha1, t, clusters).value)| == |clusters|
    ensures forall i :: 0 <= i < |clusters| ==>
      EntryFor(sha1, Written(Assemble(sha1, t, clusters).value)[i], clusters[i], i)
  {
    AssembleKeepsShape(sha1, t, clusters);
  }

  /**
   * How the loop treats the dicts of the table: a key with no classification
   * never gets one, and a classification that already names a service is
   * never changed.
   */
  ghost predicate TableKept(t: map<int, Obj>, table: map<int, Obj>) {
    (forall k :: Lookup(t, k) == map[] ==> Lookup(table, k) == map[]) &&
    (forall k :: k in t && Get(t[k], "service") != JNull ==> k in table && table[k] == t[k])
  }

  /** The key cluster c at position i is looked up under (when `int(idx)` succeeds). */
  function KeyAt(c: Obj, i: nat): Option<int> {
    ToInt(ClusterIdx(c, i))
  }

  /** Result i and its link agree with the lookup of its cluster in the filed table. */
  ghost predicate LinkFor(t: map<int, Obj>, st: Assembly, c: Obj, i: nat) {
    i < |st.links| && i < |st.results| && KeyAt(c, i).Some? &&
    var k := KeyAt(c, i).value;
    (Lookup(t, k) == map[] ==>
      st.links[i] == None && "triage" in st.results[i] &&
      st.results[i]["triage"] == JObj(map["service" := ResultService(c)])) &&
    (k in t && Get(t[k], "service") != JNull ==> st.links[i] == Some(k))
  }

  lemma AssembleStepKeeps(sha1: Sha1, t: map<int, Obj>, st: Assembly, c: Obj, i: nat)
    requires |st.links| == i && |st.results| == i
    requires TableKept(t, st.table) && AssembleStep(sha1, st, c, i).Some?
    ensures TableKept(t, AssembleStep(sha1, st, c, i).value.table)
    ensures LinkFor(t, AssembleStep(sha1, st, c, i).value, c, i)
    ensures AssembleStep(sha1, st, c, i).value.links[..i] == st.links
    ensures AssembleStep(sha1, st, c, i).value.results[..i] == st.results
  {
    var k := KeyAt(c, i).value;
    var found := Lookup(st.table, k);
    var table' := AssembleStep(sha1, st, c, i).value.table;
    forall k' | Lookup(t, k') == map[]
      ensures Lookup(table', k') == map[]
    {
      if k' == k {
        assert found == map[];
      }
    }
    forall k' | k' in t && Get(t[k'], "service") != JNull
      ensures k' in table' && table'[k'] == t[k']
    {
      if k' == k {
        assert "service" in t[k];
        assert found == t[k];
      }
    }
    if k in t && Get(t[k], "service") != JNull {
      assert "service" in t[k];
    }
  }

  lemma {:induction false} AssembleKeepsTable(sha1: Sha1, t: map<int, Obj>, clusters: seq<Obj>)
    requires Assemble(sha1, t, clusters).Some?
    ensures TableKept(t, Assemble(sha1, t, clusters).value.table)
    ensures |Assemble(sha1, t, clusters).value.results| == |clusters|
    ensures |Assemble(sha1, t, clusters).value.links| == |clusters|
    ensures forall i :: 0 <= i < |clusters| ==> LinkFor(t, Assemble(sha1, t, clusters).value, clusters[i], i)
    decreases |clusters|
  {
    if clusters != [] {
      var n := |clusters|;
      var p := clusters[..n - 1];
      AssembleLast(sha1, t, clusters);
      AssembleKeepsTable(sha1, t, p);
      var st := Assemble(sha1, t, p).value;
      AssembleStepKeeps(sha1, t, st, clusters[n - 1], n - 1);
      var st' := AssembleStep(sha1, st, clusters[n - 1], n - 1).value;
      assert Assemble(sha1, t, clusters).value == st';
      forall i | 0 <= i < n
        ensures LinkFor(t, st', clusters[i], i)
      {
        if i < n - 1 {
          assert clusters[i] == p[i];
          LinkForExtends(t, st, st', p[i], i);
        }
      }
    }
  }

  /** A cluster no classification was filed for gets a dict holding only its service. */
  lemma UnmatchedGetsService(sha1: Sha1, t: map<int, Obj>, clusters: seq<Obj>, i: nat)
    requires Assemble(sha1, t, clusters).Some? && i < |clusters| && KeyAt(clusters[i], i).Some?
    requires Lookup(t, KeyAt(clusters[i], i).value) == map[]
    ensures |Written(Assemble(sha1, t, clusters).value)| == |clusters|
    ensures "triage" in Written(Assemble(sha1, t, clusters).value)[i]
    ensures Written(Assemble(sha1, t, clusters).value)[i]["triage"] == JObj(map["service" := ResultService(clusters[i])])
  {
    AssembleKeepsTable(sha1, t, clusters);
  }

  /** A classification that names a service is written out exactly as it was filed. */
  lemma ClassifiedKeepsOwnService(sha1: Sha1, t: map<int, Obj>, clusters: seq<Obj>, i: nat)
    requires Assemble(sha1, t, clusters).Some? && i < |clusters| && KeyAt(clusters[i], i).Some?
    requires KeyAt(clusters[i], i).value in t
    requires Get(t[KeyAt(clusters[i], i).value], "service") != JNull
    ensures |Written(Assemble(sha1, t, clusters).value)| == |clusters|
    ensures "triage" in Written(Assemble(sha1, t, clusters).value)[i]
    ensures Written(Assemble(sha1, t, clusters).value)[i]["triage"] == JObj(t[KeyAt(clusters[i], i).value])
  {
    AssembleKeepsTable(sha1, t, clusters);
  }

  /** Results that share a filed classification show one and the same dict. */
  lemma SharedClassification(sha1: Sha1, t: map<int, Obj>, clusters: seq<Obj>, i: nat, j: nat)
    requires Assemble(sha1, t, clusters).Some?
    requires i < |Assemble(sha1, t, clusters).value.links| && j < |Assemble(sha1, t, clusters).value.links|
    requires Assemble(sha1, t, clusters).value.links[i].Some?
    requires Assemble(sha1, t, clusters).value.links[i] == Assemble(sha1, t, clusters).value.links[j]
    ensures |Written(Assemble(sha1, t, clusters).value)| == |Assemble(sha1, t, clusters).value.links|
    ensures "triage" in Written(Assemble(sha1, t, clusters).value)[i]
    ensures "triage" in Written(Assemble(sha1, t, clusters).value)[j]
    ensures Written(Assemble(sha1, t, clusters).value)[i]["triage"] == Written(Assemble(sha1, t, clusters).value)[j]["triage"]
    ensures Written(Assemble(sha1, t, clusters).value)[i]["triage"].JObj?
  {
    AssembleKeepsShape(sha1, t, clusters);
  }

  /** Clusters numbered by position, as the refiner writes them: every key is distinct. */
  ghost predicate Numbered(clusters: seq<Obj>) {
    forall i :: 0 <= i < |clusters| ==> Get(clusters[i], "idx") == JInt(i)
  }

  /** The table after n clusters of a numbered list: keys from n on are as filed. */
  ghost predicate TableUpTo(t: map<int, Obj>, table: map<int, Obj>, n: nat) {
    (forall k :: k in table ==> k in t) &&
    (forall k :: k in t && k >= n ==> k in table && table[k] == t[k])
  }

  /** Result i of a numbered list, against the filed table t and the current table. */
  ghost predicate JoinedAt(t: map<int, Obj>, st: Assembly, c: Obj, i: nat) {
    i < |st.links| && i < |st.results| && "triage" in st.results[i] &&
    (Lookup(t, i) == map[] ==>
      (st.links[i] == None && st.results[i]["triage"] == JObj(Filled(map[], ResultService(c))))) &&
    (Lookup(t, i) != map[] ==>
      (st.links[i] == Some(i) && i in st.table && st.table[i] == Filled(t[i], ResultService(c))))
  }

  ghost predicate JoinedUpTo(t: map<int, Obj>, st: Assembly, clusters: seq<Obj>, n: nat) {
    n <= |clusters| && |st.links| == n && |st.results| == n && TableUpTo(t, st.table, n) &&
    forall i :: 0 <= i < n ==> JoinedAt(t, st, clusters[i], i)
  }

  lemma JoinStepTable(sha1: Sha1, t: map<int, Obj>, st: Assembly, c: Obj, n: nat)
    requires Get(c, "idx") == JInt(n) && TableUpTo(t, st.table, n)
    requires |st.links| == n && |st.results| == n
    ensures AssembleStep(sha1, st, c, n).Some?
    ensures TableUpTo(t, AssembleStep(sha1, st, c, n).value.table, n + 1)
    ensures JoinedAt(t, AssembleStep(sha1, st, c, n).value, c, n)
    ensures AssembleStep(sha1, st, c, n).value.links[..n] == st.links
    ensures AssembleStep(sha1, st, c, n).value.results[..n] == st.results
  {
    assert ClusterIdx(c, n) == JInt(n);
    assert Lookup(st.table, n) == Lookup(t, n);
  }

  /** An earlier result stays joined when a later key is filled in. */
  lemma JoinedAtExtends(t: map<int, Obj>, st: Assembly, st': Assembly, c: Obj, i: nat, n: nat)
    requires JoinedAt(t, st, c, i) && i < n
    requires |st.links| == n && |st.results| == n
    requires |st'.links| > n && st'.links[..n] == st.links
    requires |st'.results| > n && st'.results[..n] == st.results
    requires forall k :: k in st.table && k != n ==> k in st'.table && st'.table[k] == st.table[k]
    ensures JoinedAt(t, st', c, i)
  {
    assert st'.links[i] == st'.links[..n][i];
    assert st'.results[i] == st'.results[..n][i];
  }

  lemma JoinStep(sha1: Sha1, t: map<int, Obj>, st: Assembly, clusters: seq<Obj>, n: nat)
    requires Numbered(clusters) && n < |clusters| && JoinedUpTo(t, st, clusters, n)
    ensures AssembleStep(sha1, st, clusters[n], n).Some?
    ensures JoinedUpTo(t, AssembleStep(sha1, st, clusters[n], n).value, clusters, n + 1)
  {
    JoinStepTable(sha1, t, st, clusters[n], n);
    var st' := AssembleStep(sha1, st, clusters[n], n).value;
    assert forall k :: k in st.table && k != n ==> k in st'.table && st'.table[k] == st.table[k];
    forall i | 0 <= i < n
      ensures JoinedAt(t, st', clusters[i], i)
    {
      JoinedAtExtends(t, st, st', clusters[i], i, n);
    }
  }

  lemma {:induction false} JoinedPrefix(sha1: Sha1, t: map<int, Obj>, clusters: seq<Obj>, n: nat)
    requires Numbered(clusters) && n <= |clusters|
    ensures Assemble(sha1, t, clusters[..n]).Some?
    ensures JoinedUpTo(t, Assemble(sha1, t, clusters[..n]).value, clusters, n)
    decreases n
  {
    if n > 0 {
      JoinedPrefix(sha1, t, clusters, n - 1);
      AssemblePrefix(sha1, t, clusters, n);
      JoinStep(sha1, t, Assemble(sha1, t, clusters[..n - 1]).value, clusters, n - 1);
    }
  }

  /** The loop over the first n clusters is the loop over the first n - 1 followed by one more turn. */
  lemma AssemblePrefix(sha1: Sha1, t: map<int, Obj>, clusters: seq<Obj>, n: nat)
    requires 0 < n <= |clusters| && Assemble(sha1, t, clusters[..n - 1]).Some?
    ensures Assemble(sha1, t, clusters[..n]) == AssembleStep(sha1, Assemble(sha1, t, clusters[..n - 1]).value, clusters[n - 1], n - 1)
  {
    var q := clusters[..n];
    assert q[..n - 1] == clusters[..n - 1];
    AssembleLast(sha1, t, q);
  }

  /**
   * The join for numbered clusters: result i carries the classification filed
   * under i with the service filled in, or a dict holding only the service
   * when none was filed.
   */
  lemma NumberedJoin(sha1: Sha1, t: map<int, Obj>, clusters: seq<Obj>)
    requires Numbered(clusters)
    ensures Assemble(sha1, t, clusters).Some?
    ensures |Written(Assemble(sha1, t, clusters).value)| == |clusters|
    ensures forall i :: 0 <= i < |clusters| ==>
      "triage" in Written(Assemble(sha1, t, clusters).value)[i] &&
      Written(Assemble(sha1, t, clusters).value)[i]["triage"] == JObj(Filled(Lookup(t, i), ResultService(clusters[i])))
  {
    JoinedPrefix(sha1, t, clusters, |clusters|);
    assert clusters[..|clusters|] == clusters;
    var st := Assemble(sha1, t, clusters).value;
    forall i | 0 <= i < |clusters|
      ensures "triage" in Written(st)[i]
      ensures Written(st)[i]["triage"] == JObj(Filled(Lookup(t, i), ResultService(clusters[i])))
    {
      WrittenJoined(t, st, clusters[i], i);
    }
  }

  lemma WrittenJoined(t: map<int, Obj>, st: Assembly, c: Obj, i: nat)
    requires JoinedAt(t, st, c, i)
    ensures "triage" in Written(st)[i]
    ensures Written(st)[i]["triage"] == JObj(Filled(Lookup(t, i), ResultService(c)))
  {
  }

  // ---------------------------------------------------------------------
  // The stage as a whole
  // ---------------------------------------------------------------------

  /** No clusters: nothing is sent and the result list is empty. */
  lemma EmptyInputAsksNothing(ask: Oracle, sha1: Sha1)
    ensures TriageStage([], ask, sha1) == TriageRun([], Some([]))
  {
  }

  /** The batches sent: the compact clusters, in order, ten at a time. */
  lemma BatchesPartition(clusters: seq<Obj>)
    ensures Flatten(Batches(clusters)) == CompactClusters(clusters)
    ensures forall b :: 0 <= b < |Batches(clusters)| ==> 0 < |Batches(clusters)[b]| <= BatchSize
    ensures |clusters| <= |Batches(clusters)| * BatchSize
    ensures clusters != [] ==> (|Batches(clusters)| - 1) * BatchSize < |clusters|
  {
    ChunksPartition(CompactClusters(clusters), BatchSize);
    ChunksCount(CompactClusters(clusters), BatchSize);
  }

  /**
   * When filing fails, the last reply asked for is the first whose items
   * fail; every earlier reply filed.
   */
  lemma {:induction false} SentCountFails(replies: seq<Json>)
    requires FileItems(map[], AllItems(replies)).None?
    ensures 0 < SentCount(replies)
    ensures FileItems(map[], AllItems(replies[..SentCount(replies) - 1])).Some?
    ensures FileItems(map[], AllItems(replies[..SentCount(replies)])).None?
    decreases |replies|
  {
    var n := |replies|;
    if n == 0 {
      assert false;
    }
    var front := replies[..n - 1];
    if FileItems(map[], AllItems(front)).None? {
      SentCountFails(front);
      var k := SentCount(front);
      assert front[..k] == replies[..k];
      assert front[..k - 1] == replies[..k - 1];
    } else {
      assert replies[..n] == replies;
    }
  }

  /**
   * The batches sent: every batch when no reply item fails `int(idx)`, and
   * otherwise the batches up to and including the first one whose reply
   * holds such an item, since the loop raises there.
   */
  lemma TriageSent(clusters: seq<Obj>, ask: Oracle, sha1: Sha1)
    requires clusters != []
    ensures var sent := TriageStage(clusters, ask, sha1).sent;
      sent == Batches(clusters)[..|sent|]
    ensures !SomeFailure(AllItems(Replies(Batches(clusters), ask))) ==>
      TriageStage(clusters, ask, sha1).sent == Batches(clusters)
    ensures var rs := Replies(Batches(clusters), ask); var k := |TriageStage(clusters, ask, sha1).sent|;
      SomeFailure(AllItems(rs)) ==>
        0 < k && !SomeFailure(AllItems(rs[..k - 1])) && SomeFailure(AllItems(rs[..k]))
  {
    var rs := Replies(Batches(clusters), ask);
    FileItemsFailsIff(map[], AllItems(rs));
    if SomeFailure(AllItems(rs)) {
      SentCountFails(rs);
      var k := SentCount(rs);
      FileItemsFailsIff(map[], AllItems(rs[..k - 1]));
      FileItemsFailsIff(map[], AllItems(rs[..k]));
    }
  }

  /** The stage writes its results exactly when every `int(idx)` it evaluates succeeds. */
  lemma TriageSucceedsIff(clusters: seq<Obj>, ask: Oracle, sha1: Sha1)
    requires clusters != []
    ensures TriageStage(clusters, ask, sha1).items.Some? ==> TriageStage(clusters, ask, sha1).sent == Batches(clusters)
    ensures TriageStage(clusters, ask, sha1).items.Some? <==>
      !SomeFailure(AllItems(Replies(Batches(clusters), ask))) && !SomeBadIndex(clusters)
  {
    var items := AllItems(Replies(Batches(clusters), ask));
    FileItemsFailsIff(map[], items);
    if FileItems(map[], items).Some? {
      AssembleFailsIff(sha1, FileItems(map[], items).value, clusters);
    }
  }

  /** The results: one per cluster, in order, each carrying the cluster's own fields. */
  lemma TriageResults(clusters: seq<Obj>, ask: Oracle, sha1: Sha1)
    requires TriageStage(clusters, ask, sha1).items.Some?
    ensures |TriageStage(clusters, ask, sha1).items.value| == |clusters|
    ensures forall i :: 0 <= i < |clusters| ==>
      EntryFor(sha1, TriageStage(clusters, ask, sha1).items.value[i], clusters[i], i)
  {
    if clusters != [] {
      var t := FileItems(map[], AllItems(Replies(Batches(clusters), ask))).value;
      WrittenShape(sha1, t, clusters);
    }
  }

  /**
   * For clusters numbered by position (the refiner's output), the stage
   * succeeds unless `int(idx)` fails on a returned item, and result i carries
   * the classification of the last item returned for index i, with the
   * service filled in.
   */
  lemma TriageJoin(clusters: seq<Obj>, ask: Oracle, sha1: Sha1, i: nat, j: nat)
    requires Numbered(clusters) && clusters != []
    requires !SomeFailure(AllItems(Replies(Batches(clusters), ask)))
    requires i < |clusters| && LastFiling(AllItems(Replies(Batches(clusters), ask)), i, j)
    ensures TriageStage(clusters, ask, sha1).items.Some?
    ensures |TriageStage(clusters, ask, sha1).items.value| == |clusters|
    ensures "triage" in TriageStage(clusters, ask, sha1).items.value[i]
    ensures TriageStage(clusters, ask, sha1).items.value[i]["triage"] ==
      JObj(Filled(TriageOf(AllItems(Replies(Batches(clusters), ask))[j].fields), ResultService(clusters[i])))
  {
    var items := AllItems(Replies(Batches(clusters), ask));
    FileItemsFailsIff(map[], items);
    var t := FileItems(map[], items).value;
    FileItemsLastWins(map[], items);
    NumberedJoin(sha1, t, clusters);
    assert Lookup(t, i) == TriageOf(items[j].fields);
  }
}
