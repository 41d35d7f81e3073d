/**
 * The filter-suggestion stage (agents/llm_filter.py `run`): the Jira drafts
 * are shown to the oracle twelve at a time, the filter clauses it returns are
 * recorded by index (a later one replacing an earlier one), and every draft
 * whose index has a non-empty clause becomes a suggestion, in draft order.
 *
 * The drafts and the oracle are parameters.
 */
module FilterSuggestions {
  import opened JsonValues
  import opened Sequences

  const BatchSize: nat := 12

  /** `d.get("cluster") or {...}`: the embedded cluster, or one built from the draft's own fields. */
  function ClusterOf(d: Obj): Obj {
    var cluster := Get(d, "cluster");
    if Truthy(cluster) then AsObj(cluster)
    else map[
      "idx" := Get(d, "idx"),
      "service" := Get(d, "service"),
      "java_class" := Get(d, "java_class"),
      "message" := Get(d, "message"),
      "count" := Get(d, "count"),
      "triage" := Get(d, "triage")]
  }

  /** `d.get("idx") or cluster.get("idx")`: an index of 0 falls through to the cluster's. */
  function ClusterIndex(d: Obj): Json {
    Or(Get(d, "idx"), Get(ClusterOf(d), "idx"))
  }

  /** What a draft shows the oracle. */
  function Payload(d: Obj): Json {
    var c := ClusterOf(d);
    JObj(map[
      "idx" := ClusterIndex(d),
      "service" := Get(c, "service"),
      "java_class" := Get(c, "java_class"),
      "message" := Get(c, "message"),
      "count" := Get(c, "count"),
      "triage" := Get(c, "triage")])
  }

  function Payloads(batch: seq<Obj>): (r: seq<Json>)
    ensures |r| == |batch|
  {
    seq(|batch|, i requires 0 <= i < |batch| => Payload(batch[i]))
  }

  function Batches(drafts: seq<Obj>): seq<seq<Obj>> {
    Chunks(drafts, BatchSize)
  }

  /** Recording returned items: only dicts with a non-None index and a non-None clause count; a later one wins. */
  function Record(table: map<Json, Json>, items: seq<Json>): map<Json, Json>
    decreases |items|
  {
    if items == [] then table
    else
      var t := Record(table, items[..|items| - 1]);
      var it := items[|items| - 1];
      if it.JObj? && Get(it.fields, "idx") != JNull && Get(it.fields, "es_filter_clause") != JNull
      then t[Get(it.fields, "idx") := Get(it.fields, "es_filter_clause")]
      else t
  }

  /** One iteration of the batch loop: a reply that is not a dict, or whose `items` is not a list, adds nothing. */
  function BatchRecord(table: map<Json, Json>, out: Json): map<Json, Json> {
    if !out.JObj? then table
    else
      var items := Or(Get(out.fields, "items"), JArr([]));
      if !items.JArr? then table else Record(table, items.items)
  }

  function RecordAll(table: map<Json, Json>, batches: seq<seq<Obj>>, ask: Oracle): map<Json, Json>
    decreases |batches|
  {
    if batches == [] then table
    else
      var n := |batches| - 1;
      BatchRecord(RecordAll(table, batches[..n], ask), ask(n, Payloads(batches[n])))
  }

  /** `clauses_by_idx.get(idx)`. */
  function ClauseFor(table: map<Json, Json>, idx: Json): Json {
    if idx in table then table[idx] else JNull
  }

  function Suggestion(d: Obj, clause: Json): Obj {
    map[
      "idx" := ClusterIndex(d),
      "service" := Get(ClusterOf(d), "service"),
      "count" := Get(ClusterOf(d), "count"),
      "es_filter_clause" := clause]
  }

  /** The suggestions, in draft order, for the drafts whose clause is truthy. */
  function Suggest(drafts: seq<Obj>, table: map<Json, Json>): seq<Obj>
    decreases |drafts|
  {
    if drafts == [] then []
    else
      var rest := Suggest(drafts[..|drafts| - 1], table);
      var d := drafts[|drafts| - 1];
      var clause := ClauseFor(table, ClusterIndex(d));
      if Truthy(clause) then rest + [Suggestion(d, clause)] else rest
  }

  /** A run of the stage: the payloads sent, the suggestions and the returned count. */
  datatype FilterRun = FilterRun(sent: seq<seq<Json>>, suggestions: seq<Obj>, count: nat)

  function FilterStage(drafts: seq<Obj>, ask: Oracle): FilterRun {
    if drafts == [] then FilterRun([], [], 0)
    else
      var batches := Batches(drafts);
      var suggestions := Suggest(drafts, RecordAll(map[], batches, ask));
      FilterRun(seq(|batches|, b requires 0 <= b < |batches| => Payloads(batches[b])), suggestions, |suggestions|)
  }

  // ---------------------------------------------------------------------
  // The loops of `run`
  // ---------------------------------------------------------------------

  method BuildPayloads(batch: seq<Obj>) returns (r: seq<Json>)
    ensures r == Payloads(batch)
  {
    r := [];
    for i := 0 to |batch|
      invariant r == Payloads(batch[..i])
    {
      assert Payloads(batch[..i + 1]) == Payloads(batch[..i]) + [Payload(batch[i])];
      r := r + [Payload(batch[i])];
    }
    assert batch[..|batch|] == batch;
  }

  method RecordItems(table: map<Json, Json>, items: seq<Json>) returns (r: map<Json, Json>)
    ensures r == Record(table, items)
  {
    r := table;
    for j := 0 to |items|
      invariant r == Record(table, items[..j])
    {
      assert items[..j + 1][..j] == items[..j];
      var it := items[j];
      if it.JObj? {
        var idx := Get(it.fields, "idx");
        var clause := Get(it.fields, "es_filter_clause");
        if idx != JNull && clause != JNull {
          r := r[idx := clause];
        }
      }
    }
    assert items[..|items|] == items;
  }

  method BuildSuggestions(drafts: seq<Obj>, table: map<Json, Json>) returns (r: seq<Obj>)
    ensures r == Suggest(drafts, table)
  {
    r := [];
    for i := 0 to |drafts|
      invariant r == Suggest(drafts[..i], table)
    {
      assert drafts[..i + 1][..i] == drafts[..i];
      var d := drafts[i];
      var idx := ClusterIndex(d);
      var clause := ClauseFor(table, idx);
      if Truthy(clause) {
        r := r + [Suggestion(d, clause)];
      }
    }
    assert drafts[..|drafts|] == drafts;
  }

  /** `run` of agents/llm_filter.py, with the drafts and the oracle as parameters. */
  method RunFilter(drafts: seq<Obj>, ask: Oracle) returns (run: FilterRun)
    ensures run == FilterStage(drafts, ask)
  {
    if drafts == [] {
      return FilterRun([], [], 0);
    }
    var batches := Batches(drafts);
    var table: map<Json, Json> := map[];
    var sent: seq<seq<Json>> := [];
    for b := 0 to |batches|
      invariant table == RecordAll(map[], batches[..b], ask)
      invariant sent == seq(b, k requires 0 <= k < b => Payloads(batches[k]))
    {
      assert batches[..b + 1][..b] == batches[..b];
      var payload := BuildPayloads(batches[b]);
      var out := ask(b, payload);
      sent := sent + [payload];
      if out.JObj? {
        var items := Or(Get(out.fields, "items"), JArr([]));
        if items.JArr? {
          table := RecordItems(table, items.items);
        }
      }
    }
    assert batches[..|batches|] == batches;
    var suggestions := BuildSuggestions(drafts, table);
    run := FilterRun(sent, suggestions, |suggestions|);
  }
}
