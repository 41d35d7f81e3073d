/**
 * The Jira-draft stage (agents/llm_jira.py `run`): the triaged items are
 * selected (all of them in `pipeline` mode, else those whose index was asked
 * for), sent to the oracle ten at a time, the drafts it returns are filed by
 * index, and every selected item either becomes a draft or is skipped with a
 * reason.
 *
 * The triaged items, the requested indices and the oracle are parameters;
 * the ticket creation in utils/jira_client.py is not part of this model.
 */
module JiraDrafts {
  import opened JsonValues
  import opened Sequences

  const BatchSize: nat := 10

  const NotSelected := "not selected"
  const NotADict := "LLM output not a dict"
  const NoItemsField := "no 'items' field in LLM output for batch"
  const ItemsNotAList := "'items' is not a list in LLM output"
  const NoDraft := "no Jira draft returned for this idx"

  // ---------------------------------------------------------------------
  // Selection
  // ---------------------------------------------------------------------

  /** `set(cluster_indices or [])`. */
  function Wanted(indices: Option<seq<int>>): set<int> {
    match indices
    case None => {}
    case Some(xs) => set x | x in xs
  }

  /** `idx in idx_set` for a set of ints: Python compares `True` and `1` as equal. */
  predicate IndexIn(idx: Json, wanted: set<int>) {
    match idx
    case JInt(i) => i in wanted
    case JBool(b) => (if b then 1 else 0) in wanted
    case _ => false
  }

  /** A `skipped` entry. */
  function SkipEntry(it: Obj, reason: string): Obj {
    map["idx" := Get(it, "idx"), "reason" := JStr(reason), "triage" := Get(it, "triage")]
  }

  /** The items whose index was asked for, in order. */
  function Chosen(items: seq<Obj>, wanted: set<int>): seq<Obj>
    decreases |items|
  {
    if items == [] then []
    else
      var rest := Chosen(items[..|items| - 1], wanted);
      var it := items[|items| - 1];
      if IndexIn(Get(it, "idx"), wanted) then rest + [it] else rest
  }

  /** The "not selected" entries for the other items, in order. */
  function NotChosen(items: seq<Obj>, wanted: set<int>): seq<Obj>
    decreases |items|
  {
    if items == [] then []
    else
      var rest := NotChosen(items[..|items| - 1], wanted);
      var it := items[|items| - 1];
      if IndexIn(Get(it, "idx"), wanted) then rest else rest + [SkipEntry(it, NotSelected)]
  }

  /** `selected` and the initial `skipped` for a mode. */
  function Selection(items: seq<Obj>, indices: Option<seq<int>>, mode: string): (seq<Obj>, seq<Obj>) {
    if mode == "pipeline" then (items, [])
    else (Chosen(items, Wanted(indices)), NotChosen(items, Wanted(indices)))
  }

  // ---------------------------------------------------------------------
  // The batches
  // ---------------------------------------------------------------------

  /** What an item shows the oracle. */
  function Payload(it: Obj): Json {
    JObj(map[
      "idx" := Get(it, "idx"),
      "signature" := Get(it, "signature"),
      "service" := Get(it, "service"),
      "java_class" := Get(it, "java_class"),
      "message" := Get(it, "message"),
      "count" := Get(it, "count"),
      "triage" := Get(it, "triage"),
      "stack_excerpt" := Get(it, "stack_excerpt")])
  }

  function Payloads(batch: seq<Obj>): (r: seq<Json>)
    ensures |r| == |batch|
  {
    seq(|batch|, i requires 0 <= i < |batch| => Payload(batch[i]))
  }

  /** The selected items in batches of ten, in order. */
  function Batches(selected: seq<Obj>): seq<seq<Obj>> {
    Chunks(selected, BatchSize)
  }

  /** `jira_by_idx` and `skipped` as the batch loop builds them. */
  datatype Collected = Collected(drafts: map<Json, Json>, skipped: seq<Obj>)

  /** Every item of a failed batch, skipped with the batch's reason. */
  function SkipAll(batch: seq<Obj>, reason: string): (r: seq<Obj>)
    ensures |r| == |batch|
  {
    seq(|batch|, i requires 0 <= i < |batch| => SkipEntry(batch[i], reason))
  }

  /** Filing returned items: non-dicts and items without an index are ignored, a later one wins. */
  function Accept(table: map<Json, Json>, items: seq<Json>): map<Json, Json>
    decreases |items|
  {
    if items == [] then table
    else
      var t := Accept(table, items[..|items| - 1]);
      var ji := items[|items| - 1];
      if ji.JObj? && Get(ji.fields, "idx") != JNull then t[Get(ji.fields, "idx") := ji] else t
  }

  /** One iteration of the batch loop, given the oracle's reply to that batch. */
  function BatchOutcome(st: Collected, batch: seq<Obj>, out: Json): Collected {
    if !out.JObj? then Collected(st.drafts, st.skipped + SkipAll(batch, NotADict))
    else
      var itemsOut := Get(out.fields, "items");
      if itemsOut == JNull then
        if |batch| == 1 then Collected(st.drafts[Get(batch[0], "idx") := out], st.skipped)
        else Collected(st.drafts, st.skipped + SkipAll(batch, NoItemsField))
      else if !itemsOut.JArr? then Collected(st.drafts, st.skipped + SkipAll(batch, ItemsNotAList))
      else Collected(Accept(st.drafts, itemsOut.items), st.skipped)
  }

  /** The batch loop over the oracle's replies, the b-th call seeing the b-th batch. */
  function CollectAll(st: Collected, batches: seq<seq<Obj>>, ask: Oracle): Collected
    decreases |batches|
  {
    if batches == [] then st
    else
      var n := |batches| - 1;
      BatchOutcome(CollectAll(st, batches[..n], ask), batches[n], ask(n, Payloads(batches[n])))
  }

  // ---------------------------------------------------------------------
  // The join
  // ---------------------------------------------------------------------

  function DraftEntry(it: Obj, jira: Json): Obj {
    map[
      "idx" := Get(it, "idx"),
      "signature" := Get(it, "signature"),
      "java_class" := Get(it, "java_class"),
      "count" := Get(it, "count"),
      "triage" := Get(it, "triage"),
      "jira" := jira]
  }

  /** The drafts for the selected items that got one, in order. */
  function Joined(selected: seq<Obj>, table: map<Json, Json>): seq<Obj>
    decreases |selected|
  {
    if selected == [] then []
    else
      var rest := Joined(selected[..|selected| - 1], table);
      var it := selected[|selected| - 1];
      if Get(it, "idx") in table then rest + [DraftEntry(it, table[Get(it, "idx")])] else rest
  }

  /** The "no Jira draft" entries for the selected items that got none, in order. */
  function Unjoined(selected: seq<Obj>, table: map<Json, Json>): seq<Obj>
    decreases |selected|
  {
    if selected == [] then []
    else
      var rest := Unjoined(selected[..|selected| - 1], table);
      var it := selected[|selected| - 1];
      if Get(it, "idx") in table then rest else rest + [SkipEntry(it, NoDraft)]
  }

  /** A run of the stage: the payloads sent, the drafts, the skipped entries and the returned count. */
  datatype JiraRun = JiraRun(sent: seq<seq<Json>>, drafts: seq<Obj>, skipped: seq<Obj>, count: nat)

  /** The skipped list written when nothing is selected: every item, index and reason only. */
  function AllNotSelected(items: seq<Obj>): (r: seq<Obj>)
    ensures |r| == |items|
  {
    seq(|items|, i requires 0 <= i < |items| => map["idx" := Get(items[i], "idx"), "reason" := JStr(NotSelected)])
  }

  function JiraStage(items: seq<Obj>, indices: Option<seq<int>>, mode: string, ask: Oracle): JiraRun {
    var (selected, skipped) := Selection(items, indices, mode);
    if selected == [] then JiraRun([], [], AllNotSelected(items), 0)
    else
      var batches := Batches(selected);
      var st := CollectAll(Collected(map[], skipped), batches, ask);
      var drafts := Joined(selected, st.drafts);
      JiraRun(seq(|batches|, b requires 0 <= b < |batches| => Payloads(batches[b])),
        drafts, st.skipped + Unjoined(selected, st.drafts), |drafts|)
  }

  // ---------------------------------------------------------------------
  // The loops of `run`
  // ---------------------------------------------------------------------

  method SkipBatch(skipped: seq<Obj>, batch: seq<Obj>, reason: string) returns (r: seq<Obj>)
    ensures r == skipped + SkipAll(batch, reason)
  {
    r := skipped;
    for i := 0 to |batch|
      invariant r == skipped + SkipAll(batch[..i], reason)
    {
      assert SkipAll(batch[..i + 1], reason) == SkipAll(batch[..i], reason) + [SkipEntry(batch[i], reason)];
      r := r + [SkipEntry(batch[i], reason)];
    }
    assert batch[..|batch|] == batch;
  }

  method AcceptItems(table: map<Json, Json>, items: seq<Json>) returns (r: map<Json, Json>)
    ensures r == Accept(table, items)
  {
    r := table;
    for j := 0 to |items|
      invariant r == Accept(table, items[..j])
    {
      assert items[..j + 1][..j] == items[..j];
      var ji := items[j];
      if ji.JObj? && Get(ji.fields, "idx") != JNull {
        r := r[Get(ji.fields, "idx") := ji];
      }
    }
    assert items[..|items|] == items;
  }

  method ProcessBatch(st: Collected, batch: seq<Obj>, out: Json) returns (r: Collected)
    ensures r == BatchOutcome(st, batch, out)
  {
    if !out.JObj? {
      var skipped := SkipBatch(st.skipped, batch, NotADict);
      return Collected(st.drafts, skipped);
    }
    var itemsOut := Get(out.fields, "items");
    if itemsOut == JNull {
      if |batch| == 1 {
        return Collected(st.drafts[Get(batch[0], "idx") := out], st.skipped);
      }
      var skipped := SkipBatch(st.skipped, batch, NoItemsField);
      return Collected(st.drafts, skipped);
    }
    if !itemsOut.JArr? {
      var skipped := SkipBatch(st.skipped, batch, ItemsNotAList);
      return Collected(st.drafts, skipped);
    }
    var drafts := AcceptItems(st.drafts, itemsOut.items);
    r := Collected(drafts, st.skipped);
  }

  method JoinDrafts(selected: seq<Obj>, table: map<Json, Json>, skipped: seq<Obj>)
    returns (drafts: seq<Obj>, skippedOut: seq<Obj>)
    ensures drafts == Joined(selected, table)
    ensures skippedOut == skipped + Unjoined(selected, table)
  {
    drafts := [];
    skippedOut := skipped;
    for i := 0 to |selected|
      invariant drafts == Joined(selected[..i], table)
      invariant skippedOut == skipped + Unjoined(selected[..i], table)
    {
      assert selected[..i + 1][..i] == selected[..i];
      var it := selected[i];
      var idx := Get(it, "idx");
      if idx !in table {
        skippedOut := skippedOut + [SkipEntry(it, NoDraft)];
      } else {
        drafts := drafts + [DraftEntry(it, table[idx])];
      }
    }
    assert selected[..|selected|] == selected;
  }

  /** `run` of agents/llm_jira.py, with the triaged items, the requested indices and the oracle as parameters. */
  method RunJira(items: seq<Obj>, indices: Option<seq<int>>, mode: string, ask: Oracle) returns (run: JiraRun)
    ensures run == JiraStage(items, indices, mode, ask)
  {
    var (selected, skipped) := Selection(items, indices, mode);
    if selected == [] {
      return JiraRun([], [], AllNotSelected(items), 0);
    }
    var batches := Batches(selected);
    var st := Collected(map[], skipped);
    var sent: seq<seq<Json>> := [];
    for b := 0 to |batches|
      invariant st == CollectAll(Collected(map[], skipped), batches[..b], ask)
      invariant sent == seq(b, k requires 0 <= k < b => Payloads(batches[k]))
    {
      assert batches[..b + 1][..b] == batches[..b];
      var payload := Payloads(batches[b]);
      var out := ask(b, payload);
      st := ProcessBatch(st, batches[b], out);
      sent := sent + [payload];
    }
    assert batches[..|batches|] == batches;
    var drafts, skippedOut := JoinDrafts(selected, st.drafts, st.skipped);
    run := JiraRun(sent, drafts, skippedOut, |drafts|);
  }
}
