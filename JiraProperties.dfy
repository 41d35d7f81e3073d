/**
 * What the Jira-draft stage guarantees: how items are selected, which
 * returned drafts are filed, that every selected item ends up either drafted
 * or skipped, and what a failed batch leaves behind.
 */
module JiraProperties {
  import opened JsonValues
  import opened Sequences
  import opened JiraDrafts

  // ---------------------------------------------------------------------
  // Selection
  // ---------------------------------------------------------------------

  lemma PipelineSelectsAll(items: seq<Obj>, indices: Option<seq<int>>)
    ensures Selection(items, indices, "pipeline").0 == items
    ensures Selection(items, indices, "pipeline").1 == []
  {
  }

  /** Every item is either chosen or skipped as not selected, according to its index, in order. */
  lemma {:induction false} ChosenPartition(items: seq<Obj>, wanted: set<int>)
    ensures |Chosen(items, wanted)| + |NotChosen(items, wanted)| == |items|
    ensures forall it :: it in Chosen(items, wanted) <==> it in items && IndexIn(Get(it, "idx"), wanted)
    ensures forall it :: it in items && !IndexIn(Get(it, "idx"), wanted) ==>
      SkipEntry(it, NotSelected) in NotChosen(items, wanted)
    ensures forall e :: e in NotChosen(items, wanted) ==>
      exists it :: it in items && !IndexIn(Get(it, "idx"), wanted) && e == SkipEntry(it, NotSelected)
    decreases |items|
  {
    if items != [] {
      var p := items[..|items| - 1];
      var last := items[|items| - 1];
      ChosenPartition(p, wanted);
      assert items == p + [last];
      forall e | e in NotChosen(items, wanted)
        ensures exists it :: it in items && !IndexIn(Get(it, "idx"), wanted) && e == SkipEntry(it, NotSelected)
      {
        if e in NotChosen(p, wanted) {
          var it :| it in p && !IndexIn(Get(it, "idx"), wanted) && e == SkipEntry(it, NotSelected);
          assert it in items;
        } else {
          assert e == SkipEntry(last, NotSelected);
        }
      }
    }
  }

  /** Nothing is chosen from an empty set of indices. */
  lemma {:induction false} ChosenNothing(items: seq<Obj>)
    ensures Chosen(items, {}) == []
    ensures |NotChosen(items, {})| == |items|
    decreases |items|
  {
    if items != [] {
      ChosenNothing(items[..|items| - 1]);
    }
  }

  /** Outside `pipeline` mode, no index list selects nothing. */
  lemma NoIndicesSelectsNothing(items: seq<Obj>, mode: string)
    requires mode != "pipeline"
    ensures Selection(items, None, mode).0 == []
    ensures |Selection(items, None, mode).1| == |items|
  {
    ChosenNothing(items);
  }

  /** Nothing selected: no call to the oracle, no draft, count 0, and every item listed as not selected. */
  lemma EmptySelectionAsksNothing(items: seq<Obj>, indices: Option<seq<int>>, mode: string, ask: Oracle)
    requires Selection(items, indices, mode).0 == []
    ensures JiraStage(items, indices, mode, ask).sent == []
    ensures JiraStage(items, indices, mode, ask).count == 0
    ensures JiraStage(items, indices, mode, ask).drafts == []
    ensures |JiraStage(items, indices, mode, ask).skipped| == |items|
  {
  }

  /** The batches: the selected items, in order, at most ten at a time. */
  lemma BatchesPartition(selected: seq<Obj>)
    ensures Flatten(Batches(selected)) == selected
    ensures forall b :: 0 <= b < |Batches(selected)| ==> 0 < |Batches(selected)[b]| <= BatchSize
    ensures |selected| <= |Batches(selected)| * BatchSize
    ensures selected != [] ==> (|Batches(selected)| - 1) * BatchSize < |selected|
  {
    ChunksPartition(selected, BatchSize);
    ChunksCount(selected, BatchSize);
  }

  // ---------------------------------------------------------------------
  // Filing the drafts
  // ---------------------------------------------------------------------

  /** Returned item j is a dict with an index k. */
  ghost predicate AcceptedAt(items: seq<Json>, j: int, k: Json) {
    0 <= j < |items| && items[j].JObj? && Get(items[j].fields, "idx") != JNull && Get(items[j].fields, "idx") == k
  }

  ghost predicate AcceptedSome(items: seq<Json>, k: Json) {
    exists j :: AcceptedAt(items, j, k)
  }

  lemma AcceptedSnoc(items: seq<Json>, k: Json)
    requires items != []
    ensures AcceptedSome(items, k) <==>
      AcceptedSome(items[..|items| - 1], k) || AcceptedAt(items, |items| - 1, k)
  {
    var p := items[..|items| - 1];
    if AcceptedSome(p, k) {
      var j :| AcceptedAt(p, j, k);
      assert items[j] == p[j];
      assert AcceptedAt(items, j, k);
    }
    if AcceptedSome(items, k) && !AcceptedAt(items, |items| - 1, k) {
      var j :| AcceptedAt(items, j, k);
      assert p[j] == items[j];
      assert AcceptedAt(p, j, k);
    }
  }

  /** The filed keys: the earlier ones and the index of every accepted item. */
  lemma {:induction false} AcceptKeys(t: map<Json, Json>, items: seq<Json>)
    ensures forall k :: k in Accept(t, items) <==> k in t || AcceptedSome(items, k)
    decreases |items|
  {
    if items != [] {
      AcceptKeys(t, items[..|items| - 1]);
      forall k
        ensures AcceptedSome(items, k) <==>
          AcceptedSome(items[..|items| - 1], k) || AcceptedAt(items, |items| - 1, k)
      {
        AcceptedSnoc(items, k);
      }
    }
  }

  /** A later returned item with the same index replaces an earlier one. */
  lemma {:induction false} AcceptLastWins(t: map<Json, Json>, items: seq<Json>, j: nat)
    requires j < |items| && items[j].JObj? && Get(items[j].fields, "idx") != JNull
    requires forall j' :: j < j' < |items| ==> !AcceptedAt(items, j', Get(items[j].fields, "idx"))
    ensures Get(items[j].fields, "idx") in Accept(t, items)
    ensures Accept(t, items)[Get(items[j].fields, "idx")] == items[j]
    decreases |items|
  {
    var n := |items|;
    var p := items[..n - 1];
    if j < n - 1 {
      assert p[j] == items[j];
      forall j' | j < j' < |p|
        ensures !AcceptedAt(p, j', Get(p[j].fields, "idx"))
      {
        assert p[j'] == items[j'];
        assert !AcceptedAt(items, j', Get(items[j].fields, "idx"));
      }
      AcceptLastWins(t, p, j);
      assert !AcceptedAt(items, n - 1, Get(items[j].fields, "idx"));
    }
  }

  /** Reply `out` to `batch` files a draft under key k. */
  ghost predicate Carries(batch: seq<Obj>, out: Json, k: Json) {
    out.JObj? &&
    ((Get(out.fields, "items") == JNull && |batch| == 1 && Get(batch[0], "idx") == k) ||
     (Get(out.fields, "items").JArr? && AcceptedSome(Get(out.fields, "items").items, k)))
  }

  lemma BatchKeys(st: Collected, batch: seq<Obj>, out: Json)
    ensures forall k :: k in BatchOutcome(st, batch, out).drafts <==> k in st.drafts || Carries(batch, out, k)
    ensures |BatchOutcome(st, batch, out).skipped| == |st.skipped| ||
      |BatchOutcome(st, batch, out).skipped| == |st.skipped| + |batch|
    ensures BatchOutcome(st, batch, out).skipped[..|st.skipped|] == st.skipped
  {
    if out.JObj? && Get(out.fields, "items").JArr? {
      AcceptKeys(st.drafts, Get(out.fields, "items").items);
    }
  }

  /** Some batch's reply carries key k. */
  ghost predicate CarriedBy(batches: seq<seq<Obj>>, ask: Oracle, k: Json) {
    exists b :: 0 <= b < |batches| && Carries(batches[b], ask(b, Payloads(batches[b])), k)
  }

  lemma CarriedSnoc(batches: seq<seq<Obj>>, ask: Oracle, k: Json)
    requires batches != []
    ensures CarriedBy(batches, ask, k) <==> (CarriedBy(batches[..|batches| - 1], ask, k) ||
      Carries(batches[|batches| - 1], ask(|batches| - 1, Payloads(batches[|batches| - 1])), k))
  {
    var n := |batches| - 1;
    var p := batches[..n];
    if CarriedBy(p, ask, k) {
      var b :| 0 <= b < |p| && Carries(p[b], ask(b, Payloads(p[b])), k);
      assert batches[b] == p[b];
    }
    if CarriedBy(batches, ask, k) && !Carries(batches[n], ask(n, Payloads(batches[n])), k) {
      var b :| 0 <= b < |batches| && Carries(batches[b], ask(b, Payloads(batches[b])), k);
      assert p[b] == batches[b];
    }
  }

  /** A draft is filed under key k exactly when some batch's reply carries it. */
  lemma {:induction false} CollectKeys(st: Collected, batches: seq<seq<Obj>>, ask: Oracle)
    ensures forall k :: k in CollectAll(st, batches, ask).drafts <==> k in st.drafts || CarriedBy(batches, ask, k)
    decreases |batches|
  {
    if batches != [] {
      var n := |batches| - 1;
      CollectKeys(st, batches[..n], ask);
      BatchKeys(CollectAll(st, batches[..n], ask), batches[n], ask(n, Payloads(batches[n])));
      forall k
        ensures CarriedBy(batches, ask, k) <==> (CarriedBy(batches[..n], ask, k) ||
          Carries(batches[n], ask(n, Payloads(batches[n])), k))
      {
        CarriedSnoc(batches, ask, k);
      }
    }
  }

  /** The batch loop only ever appends to `skipped`. */
  lemma {:induction false} CollectKeepsSkipped(st: Collected, batches: seq<seq<Obj>>, ask: Oracle)
    ensures |st.skipped| <= |CollectAll(st, batches, ask).skipped|
    ensures CollectAll(st, batches, ask).skipped[..|st.skipped|] == st.skipped
    decreases |batches|
  {
    if batches != [] {
      var n := |batches| - 1;
      var mid := CollectAll(st, batches[..n], ask);
      CollectKeepsSkipped(st, batches[..n], ask);
      BatchKeys(mid, batches[n], ask(n, Payloads(batches[n])));
      var fin := CollectAll(st, batches, ask);
      assert fin.skipped[..|mid.skipped|] == mid.skipped;
      assert fin.skipped[..|st.skipped|] == fin.skipped[..|mid.skipped|][..|st.skipped|];
    }
  }

  /** A single-item batch whose reply has no `items` uses the whole reply as that item's draft. */
  lemma SingleItemFallback(st: Collected, it: Obj, out: Json)
    requires out.JObj? && Get(out.fields, "items") == JNull
    ensures Get(it, "idx") in BatchOutcome(st, [it], out).drafts
    ensures BatchOutcome(st, [it], out).drafts[Get(it, "idx")] == out
    ensures BatchOutcome(st, [it], out).skipped == st.skipped
  {
  }

  /** A failed batch files nothing and skips each of its items once, with the failure's reason. */
  lemma FailedBatchSkipsAll(st: Collected, batch: seq<Obj>, out: Json)
    requires !out.JObj? || (Get(out.fields, "items") == JNull && |batch| != 1) ||
      (Get(out.fields, "items") != JNull && !Get(out.fields, "items").JArr?)
    ensures BatchOutcome(st, batch, out).drafts == st.drafts
    ensures |BatchOutcome(st, batch, out).skipped| == |st.skipped| + |batch|
    ensures forall i :: 0 <= i < |batch| ==>
      BatchOutcome(st, batch, out).skipped[|st.skipped| + i]["idx"] == Get(batch[i], "idx") &&
      BatchOutcome(st, batch, out).skipped[|st.skipped| + i]["reason"] in
        {JStr(NotADict), JStr(NoItemsField), JStr(ItemsNotAList)}
  {
  }

  // ---------------------------------------------------------------------
  // The join
  // ---------------------------------------------------------------------

  /** Every selected item is drafted or skipped, by whether a draft was filed under its index. */
  lemma {:induction false} JoinPartition(selected: seq<Obj>, table: map<Json, Json>)
    ensures |Joined(selected, table)| + |Unjoined(selected, table)| == |selected|
    ensures forall it :: it in selected && Get(it, "idx") in table ==>
      DraftEntry(it, table[Get(it, "idx")]) in Joined(selected, table)
    ensures forall it :: it in selected && Get(it, "idx") !in table ==>
      SkipEntry(it, NoDraft) in Unjoined(selected, table)
    ensures forall d :: d in Joined(selected, table) ==>
      exists it :: it in selected && Get(it, "idx") in table && d == DraftEntry(it, table[Get(it, "idx")])
    ensures forall d :: d in Joined(selected, table) ==> "idx" in d && d["idx"] in table
    decreases |selected|
  {
    if selected != [] {
      var p := selected[..|selected| - 1];
      var last := selected[|selected| - 1];
      JoinPartition(p, table);
      assert selected == p + [last];
      forall d | d in Joined(selected, table)
        ensures exists it :: it in selected && Get(it, "idx") in table && d == DraftEntry(it, table[Get(it, "idx")])
      {
        if d in Joined(p, table) {
          var it :| it in p && Get(it, "idx") in table && d == DraftEntry(it, table[Get(it, "idx")]);
          assert it in selected;
        } else {
          assert d == DraftEntry(last, table[Get(last, "idx")]);
        }
      }
    }
  }

  /** The drafts filed by the end of the batch loop. */
  ghost function Filed(items: seq<Obj>, indices: Option<seq<int>>, mode: string, ask: Oracle): map<Json, Json> {
    var sel := Selection(items, indices, mode);
    CollectAll(Collected(map[], sel.1), Batches(sel.0), ask).drafts
  }

  /** Some batch's reply carries the index of item it. */
  ghost predicate Answered(items: seq<Obj>, indices: Option<seq<int>>, mode: string, ask: Oracle, it: Obj) {
    CarriedBy(Batches(Selection(items, indices, mode).0), ask, Get(it, "idx"))
  }

  lemma FiledIff(items: seq<Obj>, indices: Option<seq<int>>, mode: string, ask: Oracle, it: Obj)
    ensures Get(it, "idx") in Filed(items, indices, mode, ask) <==> Answered(items, indices, mode, ask, it)
  {
    var sel := Selection(items, indices, mode);
    CollectKeys(Collected(map[], sel.1), Batches(sel.0), ask);
  }

  /** A selected item whose index some reply carries becomes a draft. */
  lemma DraftedIfAnswered(items: seq<Obj>, indices: Option<seq<int>>, mode: string, ask: Oracle, it: Obj)
    requires it in Selection(items, indices, mode).0
    requires Answered(items, indices, mode, ask, it)
    ensures exists jira :: DraftEntry(it, jira) in JiraStage(items, indices, mode, ask).drafts
  {
    FiledIff(items, indices, mode, ask, it);
    var table := Filed(items, indices, mode, ask);
    JoinPartition(Selection(items, indices, mode).0, table);
    assert DraftEntry(it, table[Get(it, "idx")]) in JiraStage(items, indices, mode, ask).drafts;
  }

  /** A selected item whose index no reply carries is skipped with "no Jira draft returned", and is no draft. */
  lemma SkippedIfUnanswered(items: seq<Obj>, indices: Option<seq<int>>, mode: string, ask: Oracle, it: Obj)
    requires it in Selection(items, indices, mode).0
    requires !Answered(items, indices, mode, ask, it)
    ensures SkipEntry(it, NoDraft) in JiraStage(items, indices, mode, ask).skipped
    ensures forall jira :: DraftEntry(it, jira) !in JiraStage(items, indices, mode, ask).drafts
  {
    FiledIff(items, indices, mode, ask, it);
    var sel := Selection(items, indices, mode);
    var table := Filed(items, indices, mode, ask);
    JoinPartition(sel.0, table);
    var run := JiraStage(items, indices, mode, ask);
    assert run.skipped == CollectAll(Collected(map[], sel.1), Batches(sel.0), ask).skipped + Unjoined(sel.0, table);
    forall jira
      ensures DraftEntry(it, jira) !in run.drafts
    {
      assert DraftEntry(it, jira)["idx"] == Get(it, "idx");
    }
  }

  /** The returned count is the number of drafts, at most the number of selected items. */
  lemma CountBound(items: seq<Obj>, indices: Option<seq<int>>, mode: string, ask: Oracle)
    ensures JiraStage(items, indices, mode, ask).count == |JiraStage(items, indices, mode, ask).drafts|
    ensures JiraStage(items, indices, mode, ask).count <= |Selection(items, indices, mode).0|
  {
    var sel := Selection(items, indices, mode);
    if sel.0 != [] {
      JoinPartition(sel.0, Filed(items, indices, mode, ask));
    }
  }

  /**
   * Every item is accounted for. A selected item is drafted or skipped with
   * "no Jira draft returned"; any other item is skipped as "not selected"
   * (index and reason only when nothing at all is selected). Hence no item
   * is lost: there are at least as many drafts and skip entries as items.
   */
  lemma EveryItemAccounted(items: seq<Obj>, indices: Option<seq<int>>, mode: string, ask: Oracle)
    ensures forall it :: it in Selection(items, indices, mode).0 ==>
      (exists jira :: DraftEntry(it, jira) in JiraStage(items, indices, mode, ask).drafts) ||
      SkipEntry(it, NoDraft) in JiraStage(items, indices, mode, ask).skipped
    ensures Selection(items, indices, mode).0 != [] ==>
      forall it :: it in items && it !in Selection(items, indices, mode).0 ==>
        SkipEntry(it, NotSelected) in JiraStage(items, indices, mode, ask).skipped
    ensures Selection(items, indices, mode).0 == [] ==>
      forall it :: it in items ==>
        map["idx" := Get(it, "idx"), "reason" := JStr(NotSelected)] in JiraStage(items, indices, mode, ask).skipped
    ensures |items| <= JiraStage(items, indices, mode, ask).count + |JiraStage(items, indices, mode, ask).skipped|
  {
    var (selected, skipped) := Selection(items, indices, mode);
    var run := JiraStage(items, indices, mode, ask);
    if mode != "pipeline" {
      ChosenPartition(items, Wanted(indices));
    }
    forall it | it in selected
      ensures (exists jira :: DraftEntry(it, jira) in run.drafts) || SkipEntry(it, NoDraft) in run.skipped
    {
      if Answered(items, indices, mode, ask, it) {
        DraftedIfAnswered(items, indices, mode, ask, it);
      } else {
        SkippedIfUnanswered(items, indices, mode, ask, it);
      }
    }
    if selected == [] {
      forall it | it in items
        ensures map["idx" := Get(it, "idx"), "reason" := JStr(NotSelected)] in run.skipped
      {
        var i :| 0 <= i < |items| && items[i] == it;
        assert run.skipped[i] == map["idx" := Get(it, "idx"), "reason" := JStr(NotSelected)];
      }
    } else {
      var batches := Batches(selected);
      CollectKeepsSkipped(Collected(map[], skipped), batches, ask);
      var st := CollectAll(Collected(map[], skipped), batches, ask);
      JoinPartition(selected, st.drafts);
      assert run.skipped == st.skipped + Unjoined(selected, st.drafts);
      forall it | it in items && it !in selected
        ensures SkipEntry(it, NotSelected) in run.skipped
      {
        var i :| 0 <= i < |skipped| && skipped[i] == SkipEntry(it, NotSelected);
        assert st.skipped[i] == st.skipped[..|skipped|][i];
        assert run.skipped[i] == st.skipped[i];
      }
    }
  }

  // ---------------------------------------------------------------------
  // Every filing, in order, and the drafts in selection order
  // ---------------------------------------------------------------------

  /** The (index, draft) pairs of the returned items that are filed: dicts with an index, in reply order. */
  function AcceptedPairs(items: seq<Json>): seq<(Json, Json)>
    decreases |items|
  {
    if items == [] then []
    else
      var rest := AcceptedPairs(items[..|items| - 1]);
      var ji := items[|items| - 1];
      if ji.JObj? && Get(ji.fields, "idx") != JNull then rest + [(Get(ji.fields, "idx"), ji)] else rest
  }

  /**
   * The (index, draft) pairs one reply files: the whole reply under the one
   * item's index for a single-item batch without `items`, the accepted items
   * of a list, and nothing for a failed batch.
   */
  function Filings(batch: seq<Obj>, out: Json): seq<(Json, Json)> {
    if !out.JObj? then []
    else
      var itemsOut := Get(out.fields, "items");
      if itemsOut == JNull then (if |batch| == 1 then [(Get(batch[0], "idx"), out)] else [])
      else if itemsOut.JArr? then AcceptedPairs(itemsOut.items)
      else []
  }

  /** The pairs filed by every batch's reply, in batch order. */
  function AllFilings(batches: seq<seq<Obj>>, ask: Oracle): seq<(Json, Json)>
    decreases |batches|
  {
    if batches == [] then []
    else
      var n := |batches| - 1;
      AllFilings(batches[..n], ask) + Filings(batches[n], ask(n, Payloads(batches[n])))
  }

  /** Storing pairs one after another, a later pair replacing an earlier one with the same index. */
  function File(t: map<Json, Json>, fs: seq<(Json, Json)>): map<Json, Json>
    decreases |fs|
  {
    if fs == [] then t else File(t, fs[..|fs| - 1])[fs[|fs| - 1].0 := fs[|fs| - 1].1]
  }

  lemma {:induction false} FileAppend(t: map<Json, Json>, a: seq<(Json, Json)>, b: seq<(Json, Json)>)
    ensures File(t, a + b) == File(File(t, a), b)
    decreases |b|
  {
    if b == [] {
      assert a + b == a;
    } else {
      var b' := b[..|b| - 1];
      FileAppend(t, a, b');
      assert (a + b)[..|a + b| - 1] == a + b';
      assert (a + b)[|a + b| - 1] == b[|b| - 1];
    }
  }

  /** Accepting returned items is filing their pairs. */
  lemma {:induction false} AcceptFiles(t: map<Json, Json>, items: seq<Json>)
    ensures Accept(t, items) == File(t, AcceptedPairs(items))
    decreases |items|
  {
    if items != [] {
      AcceptFiles(t, items[..|items| - 1]);
    }
  }

  /** The batch loop files the pairs of all replies, in order, as one sequence. */
  lemma {:induction false} CollectFiles(st: Collected, batches: seq<seq<Obj>>, ask: Oracle)
    ensures CollectAll(st, batches, ask).drafts == File(st.drafts, AllFilings(batches, ask))
    decreases |batches|
  {
    if batches != [] {
      var n := |batches| - 1;
      var mid := CollectAll(st, batches[..n], ask);
      var out := ask(n, Payloads(batches[n]));
      CollectFiles(st, batches[..n], ask);
      FileAppend(st.drafts, AllFilings(batches[..n], ask), Filings(batches[n], out));
      if out.JObj? && Get(out.fields, "items").JArr? {
        AcceptFiles(mid.drafts, Get(out.fields, "items").items);
      } else if out.JObj? && Get(out.fields, "items") == JNull && |batches[n]| == 1 {
        var one := [(Get(batches[n][0], "idx"), out)];
        assert one[..0] == [];
      }
    }
  }

  /** An index is filed when it was already, or some pair carries it. */
  lemma {:induction false} FileKeys(t: map<Json, Json>, fs: seq<(Json, Json)>)
    ensures forall k :: k in File(t, fs) <==> k in t || exists j :: 0 <= j < |fs| && fs[j].0 == k
    decreases |fs|
  {
    if fs != [] {
      var p := fs[..|fs| - 1];
      FileKeys(t, p);
      forall k | k in File(t, fs)
        ensures k in t || exists j :: 0 <= j < |fs| && fs[j].0 == k
      {
        if k != fs[|fs| - 1].0 {
          if k !in t {
            var j :| 0 <= j < |p| && p[j].0 == k;
            assert fs[j] == p[j];
          }
        }
      }
      forall k | exists j :: 0 <= j < |fs| && fs[j].0 == k
        ensures k in File(t, fs)
      {
        var j :| 0 <= j < |fs| && fs[j].0 == k;
        if j < |p| {
          assert p[j] == fs[j];
        }
      }
    }
  }

  /** The draft kept under an index is the one of the last pair carrying that index. */
  lemma {:induction false} FileLastWins(t: map<Json, Json>, fs: seq<(Json, Json)>, j: nat)
    requires j < |fs|
    requires forall j' :: j < j' < |fs| ==> fs[j'].0 != fs[j].0
    ensures fs[j].0 in File(t, fs) && File(t, fs)[fs[j].0] == fs[j].1
    decreases |fs|
  {
    var p := fs[..|fs| - 1];
    if j < |p| {
      assert p[j] == fs[j];
      forall j' | j < j' < |p|
        ensures p[j'].0 != p[j].0
      {
        assert p[j'] == fs[j'];
      }
      FileLastWins(t, p, j);
    }
  }

  /** The filings of the stage: every pair filed by the batch loop, in order. */
  ghost function StageFilings(items: seq<Obj>, indices: Option<seq<int>>, mode: string, ask: Oracle): seq<(Json, Json)> {
    AllFilings(Batches(Selection(items, indices, mode).0), ask)
  }

  /**
   * Over all replies in order, an index is filed exactly when some pair
   * carries it, and the draft kept for it is the one of the last such pair:
   * the last accepted item with that index, or the whole reply of a
   * single-item batch without `items`.
   */
  lemma FiledLastWins(items: seq<Obj>, indices: Option<seq<int>>, mode: string, ask: Oracle, j: nat)
    requires j < |StageFilings(items, indices, mode, ask)|
    requires forall j' :: j < j' < |StageFilings(items, indices, mode, ask)| ==>
      StageFilings(items, indices, mode, ask)[j'].0 != StageFilings(items, indices, mode, ask)[j].0
    ensures forall k :: k in Filed(items, indices, mode, ask) <==>
      exists i :: 0 <= i < |StageFilings(items, indices, mode, ask)| && StageFilings(items, indices, mode, ask)[i].0 == k
    ensures StageFilings(items, indices, mode, ask)[j].0 in Filed(items, indices, mode, ask)
    ensures Filed(items, indices, mode, ask)[StageFilings(items, indices, mode, ask)[j].0] == StageFilings(items, indices, mode, ask)[j].1
  {
    var sel := Selection(items, indices, mode);
    var fs := StageFilings(items, indices, mode, ask);
    CollectFiles(Collected(map[], sel.1), Batches(sel.0), ask);
    FileKeys(map[], fs);
    FileLastWins(map[], fs, j);
  }

  /** The positions of the selected items whose index was filed, in selection order. */
  function DraftPositions(selected: seq<Obj>, table: map<Json, Json>): seq<int>
    decreases |selected|
  {
    if selected == [] then []
    else
      var rest := DraftPositions(selected[..|selected| - 1], table);
      if Get(selected[|selected| - 1], "idx") in table then rest + [|selected| - 1] else rest
  }

  /** The positions ascend strictly and are exactly the selected items whose index was filed. */
  lemma {:induction false} DraftPositionsExact(selected: seq<Obj>, table: map<Json, Json>)
    ensures StrictlyAscending(DraftPositions(selected, table))
    ensures forall j :: 0 <= j < |DraftPositions(selected, table)| ==> 0 <= DraftPositions(selected, table)[j] < |selected|
    ensures forall i :: 0 <= i < |selected| ==> (i in DraftPositions(selected, table) <==> Get(selected[i], "idx") in table)
    decreases |selected|
  {
    if selected != [] {
      var n := |selected| - 1;
      var p := selected[..n];
      DraftPositionsExact(p, table);
      var ps := DraftPositions(p, table);
      forall i | 0 <= i < |selected|
        ensures i in DraftPositions(selected, table) <==> Get(selected[i], "idx") in table
      {
        if i < n {
          assert selected[i] == p[i];
          assert i in ps <==> Get(p[i], "idx") in table;
          assert i != n;
        } else {
          assert forall j :: 0 <= j < |ps| ==> ps[j] < n;
        }
      }
    }
  }

  /**
   * The drafts keep selection order: draft j is built from the selected item
   * at position j of the strictly ascending positions, which are exactly the
   * selected items whose index was filed, with the draft filed under it.
   */
  lemma {:induction false} JoinedByPosition(selected: seq<Obj>, table: map<Json, Json>)
    ensures |Joined(selected, table)| == |DraftPositions(selected, table)|
    ensures StrictlyAscending(DraftPositions(selected, table))
    ensures forall j :: 0 <= j < |DraftPositions(selected, table)| ==> 0 <= DraftPositions(selected, table)[j] < |selected|
    ensures forall i :: 0 <= i < |selected| ==> (i in DraftPositions(selected, table) <==> Get(selected[i], "idx") in table)
    ensures forall j :: 0 <= j < |DraftPositions(selected, table)| ==>
      Get(selected[DraftPositions(selected, table)[j]], "idx") in table &&
      Joined(selected, table)[j] ==
        DraftEntry(selected[DraftPositions(selected, table)[j]], table[Get(selected[DraftPositions(selected, table)[j]], "idx")])
    decreases |selected|
  {
    DraftPositionsExact(selected, table);
    if selected != [] {
      var n := |selected| - 1;
      var p := selected[..n];
      JoinedByPosition(p, table);
      var ps := DraftPositions(p, table);
      forall j | 0 <= j < |ps|
        ensures Joined(selected, table)[j] == Joined(p, table)[j] && DraftPositions(selected, table)[j] == ps[j]
        ensures selected[ps[j]] == p[ps[j]]
      {
      }
    }
  }

  /**
   * The stage's drafts, end to end: none when nothing is selected; otherwise
   * one per selected item whose index was filed, in selection order, each
   * with the draft kept under that index (see `FiledLastWins`).
   */
  lemma DraftsInSelectionOrder(items: seq<Obj>, indices: Option<seq<int>>, mode: string, ask: Oracle)
    ensures Selection(items, indices, mode).0 == [] ==> JiraStage(items, indices, mode, ask).drafts == []
    ensures var sel := Selection(items, indices, mode).0;
      var t := Filed(items, indices, mode, ask);
      var ps := DraftPositions(sel, t);
      var drafts := JiraStage(items, indices, mode, ask).drafts;
      sel != [] ==>
        && |drafts| == |ps|
        && StrictlyAscending(ps)
        && (forall i :: 0 <= i < |sel| ==> (i in ps <==> Get(sel[i], "idx") in t))
        && (forall j :: 0 <= j < |ps| ==>
             0 <= ps[j] < |sel| && Get(sel[ps[j]], "idx") in t &&
             drafts[j] == DraftEntry(sel[ps[j]], t[Get(sel[ps[j]], "idx")]))
  {
    var sel := Selection(items, indices, mode).0;
    JoinedByPosition(sel, Filed(items, indices, mode, ask));
  }

  // ---------------------------------------------------------------------
  // A failed batch, end to end
  // ---------------------------------------------------------------------

  const First: Obj := map["idx" := JInt(0), "triage" := JNull]
  const Second: Obj := map["idx" := JInt(1), "triage" := JNull]

  /** Two items in `pipeline` mode and a reply that is not a dict: both are skipped twice and no draft is made. */
  lemma FailedBatchSkippedTwice(ask: Oracle)
    requires ask(0, Payloads([First, Second])) == JNull
    ensures JiraStage([First, Second], None, "pipeline", ask).count == 0
    ensures JiraStage([First, Second], None, "pipeline", ask).skipped ==
      [SkipEntry(First, NotADict), SkipEntry(Second, NotADict), SkipEntry(First, NoDraft), SkipEntry(Second, NoDraft)]
  {
    var items := [First, Second];
    assert Batches(items) == [items];
    var batches := [items];
    assert batches[..0] == [];
    assert CollectAll(Collected(map[], []), batches[..0], ask) == Collected(map[], []);
    assert ask(0, Payloads(batches[0])) == JNull;
    var st := CollectAll(Collected(map[], []), batches, ask);
    assert st == BatchOutcome(Collected(map[], []), items, JNull);
    assert st.skipped == [SkipEntry(First, NotADict), SkipEntry(Second, NotADict)];
    assert st.drafts == map[];
    assert items[..1] == [First];
    assert [First][..0] == [];
    assert Unjoined([First], map[]) == [SkipEntry(First, NoDraft)];
    assert Unjoined(items, map[]) == [SkipEntry(First, NoDraft), SkipEntry(Second, NoDraft)];
    assert Joined([First], map[]) == [];
    assert Joined(items, map[]) == [];
  }
}
