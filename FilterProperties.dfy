/**
 * What the filter-suggestion stage guarantees: which returned clauses are
 * recorded, that suggestions follow draft order one per draft with a
 * non-empty clause, and how a draft's index is chosen.
 */
module FilterProperties {
  import opened JsonValues
  import opened Sequences
  import opened FilterSuggestions

  /** No drafts: nothing is sent and there are no suggestions. */
  lemma EmptyDraftsAsksNothing(ask: Oracle)
    ensures FilterStage([], ask) == FilterRun([], [], 0)
  {
  }

  /** The batches: the drafts, in order, at most twelve at a time. */
  lemma BatchesPartition(drafts: seq<Obj>)
    ensures Flatten(Batches(drafts)) == drafts
    ensures forall b :: 0 <= b < |Batches(drafts)| ==> 0 < |Batches(drafts)[b]| <= BatchSize
    ensures |drafts| <= |Batches(drafts)| * BatchSize
    ensures drafts != [] ==> (|Batches(drafts)| - 1) * BatchSize < |drafts|
  {
    ChunksPartition(drafts, BatchSize);
    ChunksCount(drafts, BatchSize);
  }

  /** A draft with a truthy index keeps it; an index of 0 or None falls through to the embedded cluster's. */
  lemma IndexChoice(d: Obj)
    ensures Truthy(Get(d, "idx")) ==> ClusterIndex(d) == Get(d, "idx")
    ensures !Truthy(Get(d, "idx")) ==> ClusterIndex(d) == Get(ClusterOf(d), "idx")
  {
  }

  /** A draft with index 0 and an embedded cluster numbered 7 is looked up under 7. */
  lemma IndexZeroFallsThrough()
    ensures ClusterIndex(map["idx" := JInt(0), "cluster" := JObj(map["idx" := JInt(7)])]) == JInt(7)
  {
    var d := map["idx" := JInt(0), "cluster" := JObj(map["idx" := JInt(7)])];
    assert Get(d, "cluster") == JObj(map["idx" := JInt(7)]);
    assert ClusterOf(d) == map["idx" := JInt(7)];
  }

  // ---------------------------------------------------------------------
  // Recording the clauses
  // ---------------------------------------------------------------------

  /** Returned item j records clause v under index k. */
  ghost predicate RecordedAt(items: seq<Json>, j: int, k: Json, v: Json) {
    0 <= j < |items| && items[j].JObj? &&
    Get(items[j].fields, "idx") == k && k != JNull &&
    Get(items[j].fields, "es_filter_clause") == v && v != JNull
  }

  /** No returned item after position j records anything under k. */
  ghost predicate NoLaterRecord(items: seq<Json>, j: int, k: Json) {
    forall j', v :: j < j' < |items| ==> !RecordedAt(items, j', k, v)
  }

  /** Returned item j records some clause under index k. */
  ghost predicate RecordsAt(items: seq<Json>, j: int, k: Json) {
    0 <= j < |items| && items[j].JObj? && Get(items[j].fields, "idx") == k && k != JNull &&
    Get(items[j].fields, "es_filter_clause") != JNull
  }

  ghost predicate RecordsKey(items: seq<Json>, k: Json) {
    exists j :: RecordsAt(items, j, k)
  }

  lemma RecordsKeySnoc(items: seq<Json>, k: Json)
    requires items != []
    ensures RecordsKey(items, k) <==> (RecordsKey(items[..|items| - 1], k) || RecordsAt(items, |items| - 1, k))
  {
    var p := items[..|items| - 1];
    if RecordsKey(p, k) {
      var j :| RecordsAt(p, j, k);
      assert items[j] == p[j];
      assert RecordsAt(items, j, k);
    }
    if RecordsKey(items, k) && !RecordsAt(items, |items| - 1, k) {
      var j :| RecordsAt(items, j, k);
      assert p[j] == items[j];
      assert RecordsAt(p, j, k);
    }
  }

  /** The recorded keys: the earlier ones and the index of every item with a non-None index and clause. */
  lemma {:induction false} RecordKeys(t: map<Json, Json>, items: seq<Json>)
    ensures forall k :: k in Record(t, items) <==> k in t || RecordsKey(items, k)
    decreases |items|
  {
    if items != [] {
      RecordKeys(t, items[..|items| - 1]);
      forall k
        ensures RecordsKey(items, k) <==> (RecordsKey(items[..|items| - 1], k) || RecordsAt(items, |items| - 1, k))
      {
        RecordsKeySnoc(items, k);
      }
    }
  }

  /** The clause recorded under an index is the one of the last item recording it. */
  lemma {:induction false} RecordLastWins(t: map<Json, Json>, items: seq<Json>, j: nat, k: Json, v: Json)
    requires RecordedAt(items, j, k, v) && NoLaterRecord(items, j, k)
    ensures k in Record(t, items) && Record(t, items)[k] == v
    decreases |items|
  {
    var n := |items|;
    var p := items[..n - 1];
    if j < n - 1 {
      assert p[j] == items[j];
      forall j', v' | j < j' < |p|
        ensures !RecordedAt(p, j', k, v')
      {
        assert p[j'] == items[j'];
        assert !RecordedAt(items, j', k, v');
      }
      AcceptRecorded(p, j, k, v);
      RecordLastWins(t, p, j, k, v);
      assert !RecordsAt(items, n - 1, k) by {
        if RecordsAt(items, n - 1, k) {
          assert RecordedAt(items, n - 1, k, Get(items[n - 1].fields, "es_filter_clause"));
        }
      }
    }
  }

  lemma AcceptRecorded(p: seq<Json>, j: nat, k: Json, v: Json)
    requires j < |p| && p[j].JObj? && Get(p[j].fields, "idx") == k && k != JNull
    requires Get(p[j].fields, "es_filter_clause") == v && v != JNull
    ensures RecordedAt(p, j, k, v)
  {
  }

  /** The items the batch loop reads from a reply: none unless it is a dict whose `items or []` is a list. */
  function ReplyItems(out: Json): seq<Json> {
    if !out.JObj? then []
    else
      var items := Or(Get(out.fields, "items"), JArr([]));
      if items.JArr? then items.items else []
  }

  /** The items of every batch's reply, in batch order. */
  function AllItems(batches: seq<seq<Obj>>, ask: Oracle): seq<Json>
    decreases |batches|
  {
    if batches == [] then []
    else
      var n := |batches| - 1;
      AllItems(batches[..n], ask) + ReplyItems(ask(n, Payloads(batches[n])))
  }

  lemma {:induction false} RecordAppend(t: map<Json, Json>, a: seq<Json>, b: seq<Json>)
    ensures Record(t, a + b) == Record(Record(t, a), b)
    decreases |b|
  {
    if b == [] {
      assert a + b == a;
    } else {
      var b' := b[..|b| - 1];
      RecordAppend(t, a, b');
      assert (a + b)[..|a + b| - 1] == a + b';
      assert (a + b)[|a + b| - 1] == b[|b| - 1];
    }
  }

  /** The batch loop records the items of all replies, in order, as one sequence. */
  lemma {:induction false} RecordAllItems(t: map<Json, Json>, batches: seq<seq<Obj>>, ask: Oracle)
    ensures RecordAll(t, batches, ask) == Record(t, AllItems(batches, ask))
    decreases |batches|
  {
    if batches != [] {
      var n := |batches| - 1;
      RecordAllItems(t, batches[..n], ask);
      RecordAppend(t, AllItems(batches[..n], ask), ReplyItems(ask(n, Payloads(batches[n]))));
    }
  }

  lemma RecordsKeyAppend(a: seq<Json>, b: seq<Json>, k: Json)
    ensures RecordsKey(a + b, k) <==> RecordsKey(a, k) || RecordsKey(b, k)
  {
    if RecordsKey(a, k) {
      var j :| RecordsAt(a, j, k);
      assert (a + b)[j] == a[j];
      assert RecordsAt(a + b, j, k);
    }
    if RecordsKey(b, k) {
      var j :| RecordsAt(b, j, k);
      assert (a + b)[|a| + j] == b[j];
      assert RecordsAt(a + b, |a| + j, k);
    }
    if RecordsKey(a + b, k) {
      var j :| RecordsAt(a + b, j, k);
      if j < |a| {
        assert a[j] == (a + b)[j];
        assert RecordsAt(a, j, k);
      } else {
        assert b[j - |a|] == (a + b)[j];
        assert RecordsAt(b, j - |a|, k);
      }
    }
  }

  /** Some batch's reply records a clause under index k. */
  ghost predicate RecordedBy(batches: seq<seq<Obj>>, ask: Oracle, k: Json) {
    exists b :: 0 <= b < |batches| && RecordsKey(ReplyItems(ask(b, Payloads(batches[b]))), k)
  }

  lemma RecordedBySnoc(batches: seq<seq<Obj>>, ask: Oracle, k: Json)
    requires batches != []
    ensures RecordedBy(batches, ask, k) <==> (RecordedBy(batches[..|batches| - 1], ask, k) ||
      RecordsKey(ReplyItems(ask(|batches| - 1, Payloads(batches[|batches| - 1]))), k))
  {
    var n := |batches| - 1;
    if RecordedBy(batches[..n], ask, k) {
      RecordedByPrefix(batches, n, ask, k);
    }
    if RecordedBy(batches, ask, k) && !RecordsKey(ReplyItems(ask(n, Payloads(batches[n]))), k) {
      RecordedByEarlier(batches, ask, k);
    }
  }

  /** A record in a prefix of the batches is a record in the batches. */
  lemma RecordedByPrefix(batches: seq<seq<Obj>>, n: nat, ask: Oracle, k: Json)
    requires n <= |batches| && RecordedBy(batches[..n], ask, k)
    ensures RecordedBy(batches, ask, k)
  {
    var p := batches[..n];
    var b :| 0 <= b < |p| && RecordsKey(ReplyItems(ask(b, Payloads(p[b]))), k);
    assert batches[b] == p[b];
  }

  /** A record that is not in the last batch is in the ones before it. */
  lemma RecordedByEarlier(batches: seq<seq<Obj>>, ask: Oracle, k: Json)
    requires batches != [] && RecordedBy(batches, ask, k)
    requires !RecordsKey(ReplyItems(ask(|batches| - 1, Payloads(batches[|batches| - 1]))), k)
    ensures RecordedBy(batches[..|batches| - 1], ask, k)
  {
    var p := batches[..|batches| - 1];
    var b :| 0 <= b < |batches| && RecordsKey(ReplyItems(ask(b, Payloads(batches[b]))), k);
    assert p[b] == batches[b];
  }

  lemma {:induction false} AllItemsRecords(batches: seq<seq<Obj>>, ask: Oracle, k: Json)
    ensures RecordsKey(AllItems(batches, ask), k) <==> RecordedBy(batches, ask, k)
    decreases |batches|
  {
    if batches != [] {
      var n := |batches| - 1;
      AllItemsRecords(batches[..n], ask, k);
      RecordsKeyAppend(AllItems(batches[..n], ask), ReplyItems(ask(n, Payloads(batches[n]))), k);
      RecordedBySnoc(batches, ask, k);
    }
  }

  /**
   * Across all batches: `clauses_by_idx` has a clause under index k exactly
   * when some batch's reply records one.
   */
  lemma RecordAllKeys(batches: seq<seq<Obj>>, ask: Oracle, k: Json)
    ensures k in RecordAll(map[], batches, ask) <==> RecordedBy(batches, ask, k)
  {
    RecordAllItems(map[], batches, ask);
    RecordKeys(map[], AllItems(batches, ask));
    AllItemsRecords(batches, ask, k);
  }

  /**
   * Across all batches: the clause kept under an index is the one of the last
   * item, over all replies in order, that records it.
   */
  lemma RecordAllLastWins(batches: seq<seq<Obj>>, ask: Oracle, j: nat, k: Json, v: Json)
    requires RecordedAt(AllItems(batches, ask), j, k, v) && NoLaterRecord(AllItems(batches, ask), j, k)
    ensures k in RecordAll(map[], batches, ask) && RecordAll(map[], batches, ask)[k] == v
  {
    RecordAllItems(map[], batches, ask);
    RecordLastWins(map[], AllItems(batches, ask), j, k, v);
  }

  /** A reply that is not a dict, or whose `items` is a non-list, records nothing. */
  lemma BadReplyRecordsNothing(table: map<Json, Json>, out: Json)
    requires !out.JObj? || (Truthy(Get(out.fields, "items")) && !Get(out.fields, "items").JArr?)
    ensures BatchRecord(table, out) == table
  {
  }

  // ---------------------------------------------------------------------
  // The suggestions
  // ---------------------------------------------------------------------

  /**
   * One suggestion per draft whose clause is truthy, in draft order: each
   * suggestion comes from such a draft, each such draft has its suggestion,
   * and there are never more suggestions than drafts.
   */
  lemma {:induction false} SuggestSpec(drafts: seq<Obj>, table: map<Json, Json>)
    ensures |Suggest(drafts, table)| <= |drafts|
    ensures forall d :: d in drafts && Truthy(ClauseFor(table, ClusterIndex(d))) ==>
      Suggestion(d, ClauseFor(table, ClusterIndex(d))) in Suggest(drafts, table)
    ensures forall s :: s in Suggest(drafts, table) ==>
      exists d :: d in drafts && Truthy(ClauseFor(table, ClusterIndex(d))) && s == Suggestion(d, ClauseFor(table, ClusterIndex(d)))
    decreases |drafts|
  {
    if drafts != [] {
      var p := drafts[..|drafts| - 1];
      var last := drafts[|drafts| - 1];
      SuggestSpec(p, table);
      assert drafts == p + [last];
      forall s | s in Suggest(drafts, table)
        ensures exists d :: d in drafts && Truthy(ClauseFor(table, ClusterIndex(d))) && s == Suggestion(d, ClauseFor(table, ClusterIndex(d)))
      {
        if s in Suggest(p, table) {
          var d :| d in p && Truthy(ClauseFor(table, ClusterIndex(d))) && s == Suggestion(d, ClauseFor(table, ClusterIndex(d)));
          assert d in drafts;
        } else {
          assert s == Suggestion(last, ClauseFor(table, ClusterIndex(last)));
        }
      }
    }
  }

  /** A draft gets a suggestion when the clause recorded under its index is truthy. */
  predicate Qualifies(table: map<Json, Json>, d: Obj) {
    Truthy(ClauseFor(table, ClusterIndex(d)))
  }

  /** The positions of the qualifying drafts, in draft order. */
  function Positions(drafts: seq<Obj>, table: map<Json, Json>): seq<int>
    decreases |drafts|
  {
    if drafts == [] then []
    else
      var rest := Positions(drafts[..|drafts| - 1], table);
      if Qualifies(table, drafts[|drafts| - 1]) then rest + [|drafts| - 1] else rest
  }

  /** The positions ascend strictly and are exactly the qualifying drafts. */
  lemma {:induction false} PositionsExact(drafts: seq<Obj>, table: map<Json, Json>)
    ensures StrictlyAscending(Positions(drafts, table))
    ensures forall j :: 0 <= j < |Positions(drafts, table)| ==> 0 <= Positions(drafts, table)[j] < |drafts|
    ensures forall i :: 0 <= i < |drafts| ==> (i in Positions(drafts, table) <==> Qualifies(table, drafts[i]))
    decreases |drafts|
  {
    if drafts != [] {
      var n := |drafts| - 1;
      var p := drafts[..n];
      PositionsExact(p, table);
      var ps := Positions(p, table);
      forall i | 0 <= i < |drafts|
        ensures i in Positions(drafts, table) <==> Qualifies(table, drafts[i])
      {
        if i < n {
          assert drafts[i] == p[i];
          assert i in ps <==> Qualifies(table, p[i]);
          assert i != n;
        } else {
          assert forall j :: 0 <= j < |ps| ==> ps[j] < n;
        }
      }
    }
  }

  /**
   * The suggestions are exactly one per qualifying draft, in draft order:
   * the positions ascend strictly, list every qualifying draft and no other,
   * and suggestion j is built from the draft at position j.
   */
  lemma {:induction false} SuggestByPosition(drafts: seq<Obj>, table: map<Json, Json>)
    ensures |Suggest(drafts, table)| == |Positions(drafts, table)|
    ensures StrictlyAscending(Positions(drafts, table))
    ensures forall j :: 0 <= j < |Positions(drafts, table)| ==> 0 <= Positions(drafts, table)[j] < |drafts|
    ensures forall i :: 0 <= i < |drafts| ==> (i in Positions(drafts, table) <==> Qualifies(table, drafts[i]))
    ensures forall j :: 0 <= j < |Positions(drafts, table)| ==>
      Suggest(drafts, table)[j] ==
        Suggestion(drafts[Positions(drafts, table)[j]], ClauseFor(table, ClusterIndex(drafts[Positions(drafts, table)[j]])))
    decreases |drafts|
  {
    PositionsExact(drafts, table);
    if drafts != [] {
      var n := |drafts| - 1;
      var p := drafts[..n];
      SuggestByPosition(p, table);
      var ps := Positions(p, table);
      var ss := Suggest(p, table);
      forall j | 0 <= j < |ps|
        ensures Suggest(drafts, table)[j] == ss[j] && Positions(drafts, table)[j] == ps[j]
        ensures drafts[ps[j]] == p[ps[j]]
      {
      }
    }
  }

  /**
   * The stage as a whole: draft i is suggested exactly when some batch's
   * reply records a clause under its index and the clause kept there (the
   * last one recorded) is truthy.
   */
  lemma DraftSuggested(drafts: seq<Obj>, ask: Oracle, i: nat)
    requires i < |drafts|
    ensures var t := RecordAll(map[], Batches(drafts), ask); var k := ClusterIndex(drafts[i]);
      i in Positions(drafts, t) <==> RecordedBy(Batches(drafts), ask, k) && Truthy(ClauseFor(t, k))
  {
    var t := RecordAll(map[], Batches(drafts), ask);
    SuggestByPosition(drafts, t);
    RecordAllKeys(Batches(drafts), ask, ClusterIndex(drafts[i]));
  }

  /** Every suggestion carries a truthy clause. */
  lemma {:induction false} SuggestionsHaveClauses(drafts: seq<Obj>, table: map<Json, Json>)
    ensures forall i :: 0 <= i < |Suggest(drafts, table)| ==>
      "es_filter_clause" in Suggest(drafts, table)[i] && Truthy(Suggest(drafts, table)[i]["es_filter_clause"])
    decreases |drafts|
  {
    if drafts != [] {
      SuggestionsHaveClauses(drafts[..|drafts| - 1], table);
    }
  }

  /** The stage's count is the number of suggestions, never more than the number of drafts. */
  lemma CountBound(drafts: seq<Obj>, ask: Oracle)
    ensures FilterStage(drafts, ask).count == |FilterStage(drafts, ask).suggestions|
    ensures FilterStage(drafts, ask).count <= |drafts|
  {
    if drafts != [] {
      SuggestSpec(drafts, RecordAll(map[], Batches(drafts), ask));
    }
  }
}
