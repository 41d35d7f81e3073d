/**
 * The triage stage (agents/llm_triage.py `run`): every cluster is shown to
 * the oracle in a compact form, in batches of ten; the classifications it
 * returns are filed by cluster index (a later one replacing an earlier one);
 * then one result per cluster joins the cluster with its classification, a
 * signature and the first lines of its sample log.
 *
 * The loaded clusters, the oracle and SHA-1 are parameters. `TRIAGE_TOP_N`
 * is None in the source, so every cluster is triaged.
 */
module Triage {
  import opened JsonValues
  import opened Sequences
  import opened LogText

  const BatchSize: nat := 10

  /** `c.get("idx")`, or the position when that is None. */
  function ClusterIdx(c: Obj, i: nat): Json {
    if Get(c, "idx") == JNull then JInt(i) else Get(c, "idx")
  }

  /** `sample = c.get("sample") or {}`, then `sample.get(key) or sample`. */
  function SampleSource(c: Obj, key: string): Obj {
    var sample := AsObj(Or(Get(c, "sample"), JObj(map[])));
    AsObj(Or(Get(sample, key), JObj(sample)))
  }

  /** The service name: the sample's `AthenaServiceName`, its `service`, or the cluster's `athena_service`. */
  function ServiceOf(src: Obj, c: Obj): Json {
    Or(Or(Get(src, "AthenaServiceName"), Get(src, "service")), Get(c, "athena_service"))
  }

  /** The entry shown to the oracle for the i-th cluster. */
  function CompactCluster(c: Obj, i: nat): Json {
    var src := SampleSource(c, "_source");
    JObj(map[
      "idx" := ClusterIdx(c, i),
      "service" := ServiceOf(src, c),
      "java_class" := Get(c, "java_class"),
      "message" := Get(c, "message"),
      "log" := Or(Or(Get(src, "log"), Get(c, "message")), JStr("")),
      "count" := Get(c, "count")])
  }

  function CompactClusters(clusters: seq<Obj>): (r: seq<Json>)
    ensures |r| == |clusters|
  {
    seq(|clusters|, i requires 0 <= i < |clusters| => CompactCluster(clusters[i], i))
  }

  /** The batches sent to the oracle, in order. */
  function Batches(clusters: seq<Obj>): seq<seq<Json>> {
    Chunks(CompactClusters(clusters), BatchSize)
  }

  // ---------------------------------------------------------------------
  // `triage_by_idx`
  // ---------------------------------------------------------------------

  /** The items of a reply: `out.get("items") or []` when the reply is a dict, else none. */
  function ReplyItems(out: Json): seq<Json> {
    if out.JObj? then Elements(Or(Get(out.fields, "items"), JArr([]))) else []
  }

  /** The classification rebuilt from an item's flat fields. */
  function FlatTriage(item: Obj): Obj {
    map[
      "label" := Get(item, "label"),
      "service" := Get(item, "service"),
      "priority" := Get(item, "priority"),
      "severity" := Get(item, "severity"),
      "confidence" := Get(item, "confidence"),
      "reason" := Get(item, "reason")]
  }

  /** An item's `triage` when it is a non-empty dict, else the flat rebuild. */
  function TriageOf(item: Obj): (t: Obj)
    ensures t != map[]
  {
    var t := Get(item, "triage");
    if t.JObj? && t.fields != map[] then t.fields
    else
      assert "label" in FlatTriage(item);
      FlatTriage(item)
  }

  /** What happens to a returned item: skipped, filed under `int(idx)`, or `int(idx)` raises. */
  datatype Filing = Skip | File(k: int) | Fail

  function FilingOf(item: Json): (f: Filing)
    ensures f.File? ==> item.JObj?
  {
    if !item.JObj? then Skip
    else
      var idx := Get(item.fields, "idx");
      if idx == JNull then Skip
      else
        match ToInt(idx)
        case None => Fail
        case Some(k) => File(k)
  }

  /** The table after filing the items in order; None once `int(idx)` has raised. */
  function FileItems(t: map<int, Obj>, items: seq<Json>): Option<map<int, Obj>>
    decreases |items|
  {
    if items == [] then Some(t)
    else
      match FileItems(t, items[..|items| - 1])
      case None => None
      case Some(m) =>
        var it := items[|items| - 1];
        match FilingOf(it)
        case Skip => Some(m)
        case Fail => None
        case File(k) => Some(m[k := TriageOf(it.fields)])
  }

  /** The replies, one per batch, to calls numbered from 0. */
  function Replies(batches: seq<seq<Json>>, ask: Oracle): (r: seq<Json>)
    ensures |r| == |batches|
  {
    seq(|batches|, b requires 0 <= b < |batches| => ask(b, batches[b]))
  }

  /** Every item of every reply, in order. */
  function AllItems(replies: seq<Json>): seq<Json> {
    Flatten(seq(|replies|, b requires 0 <= b < |replies| => ReplyItems(replies[b])))
  }

  /**
   * How many of the replies are asked for. The batch loop raises inside the
   * first reply whose items fail to file, so no later batch is sent.
   */
  function SentCount(replies: seq<Json>): (k: nat)
    ensures k <= |replies|
    decreases |replies|
  {
    if replies == [] then 0
    else if FileItems(map[], AllItems(replies[..|replies| - 1])).None? then SentCount(replies[..|replies| - 1])
    else |replies|
  }

  // ---------------------------------------------------------------------
  // The results
  // ---------------------------------------------------------------------

  /** `triage_by_idx.get(k, {}) or {}`: the filed dict itself, or a fresh empty one. */
  function Lookup(t: map<int, Obj>, k: int): Obj {
    if k in t && t[k] != map[] then t[k] else map[]
  }

  /** The classification with `service` filled in when it is absent or None. */
  function Filled(triage: Obj, service: Json): Obj {
    if "service" !in triage || triage["service"] == JNull then triage["service" := service] else triage
  }

  /** The result for the i-th cluster, given its index value, its classification and the digest function. */
  function ResultEntry(sha1: Sha1, c: Obj, idx: Json, triage: Obj): Obj {
    var src := SampleSource(c, "raw");
    map[
      "idx" := idx,
      "signature" := JStr(Signature(sha1, Get(c, "java_class"), Get(c, "message"))),
      "service" := ServiceOf(src, c),
      "java_class" := Get(c, "java_class"),
      "message" := Get(c, "message"),
      "count" := Get(c, "count"),
      "stack_excerpt" := JStr(StackExcerpt(Text(GetOr(src, "log", JStr(""))))),
      "triage" := JObj(Filled(triage, ServiceOf(src, c)))]
  }

  /**
   * The state of the result loop. `table` is `triage_by_idx`, whose dicts the
   * loop fills in place; `results` are the entries so far; `links[i]` is the
   * key of the table dict that entry i's `triage` refers to, or None when the
   * entry got a fresh dict of its own.
   */
  datatype Assembly = Assembly(table: map<int, Obj>, results: seq<Obj>, links: seq<Option<int>>)

  /** One iteration of the result loop. */
  function AssembleStep(sha1: Sha1, st: Assembly, c: Obj, i: nat): Option<Assembly> {
    var idx := ClusterIdx(c, i);
    match ToInt(idx)
    case None => None
    case Some(k) =>
      var found := Lookup(st.table, k);
      var filled := Filled(found, ServiceOf(SampleSource(c, "raw"), c));
      if found != map[] then
        Some(Assembly(st.table[k := filled], st.results + [ResultEntry(sha1, c, idx, found)], st.links + [Some(k)]))
      else
        Some(Assembly(st.table, st.results + [ResultEntry(sha1, c, idx, found)], st.links + [None]))
  }

  function Assemble(sha1: Sha1, t: map<int, Obj>, clusters: seq<Obj>): Option<Assembly>
    decreases |clusters|
  {
    if clusters == [] then Some(Assembly(t, [], []))
    else
      match Assemble(sha1, t, clusters[..|clusters| - 1])
      case None => None
      case Some(st) => AssembleStep(sha1, st, clusters[|clusters| - 1], |clusters| - 1)
  }

  /**
   * The results as written out: an entry whose `triage` is a table dict shows
   * that dict as it stands once the loop is over.
   */
  function Written(st: Assembly): (r: seq<Obj>)
    ensures |r| == |st.results|
  {
    seq(|st.results|, i requires 0 <= i < |st.results| =>
      if i < |st.links| && st.links[i].Some? && st.links[i].value in st.table
      then st.results[i]["triage" := JObj(st.table[st.links[i].value])]
      else st.results[i])
  }

  /** A run of the stage: the batches sent and the items written; None where `int(idx)` raises. */
  datatype TriageRun = TriageRun(sent: seq<seq<Json>>, items: Option<seq<Obj>>)

  function TriageStage(clusters: seq<Obj>, ask: Oracle, sha1: Sha1): TriageRun {
    if clusters == [] then TriageRun([], Some([]))
    else
      var batches := Batches(clusters);
      var replies := Replies(batches, ask);
      match FileItems(map[], AllItems(replies))
      case None => TriageRun(batches[..SentCount(replies)], None)
      case Some(t) =>
        match Assemble(sha1, t, clusters)
        case None => TriageRun(batches, None)
        case Some(st) => TriageRun(batches, Some(Written(st)))
  }

  // ---------------------------------------------------------------------
  // The loops of `run`
  // ---------------------------------------------------------------------

  method BuildCompactClusters(clusters: seq<Obj>) returns (compact: seq<Json>)
    ensures compact == CompactClusters(clusters)
  {
    compact := [];
    for i := 0 to |clusters|
      invariant compact == CompactClusters(clusters[..i])
    {
      compact := compact + [CompactCluster(clusters[i], i)];
    }
    assert clusters[..|clusters|] == clusters;
  }

  /** The inner loop over one reply's items. */
  method FileReply(t: map<int, Obj>, items: seq<Json>) returns (r: Option<map<int, Obj>>)
    ensures r == FileItems(t, items)
  {
    var m := t;
    for j := 0 to |items|
      invariant FileItems(t, items[..j]) == Some(m)
    {
      assert items[..j + 1][..j] == items[..j];
      var item := items[j];
      var f := FilingOf(item);
      if f.Fail? {
        FilingFailSticks(t, items, j + 1);
        return None;
      } else if f.File? {
        m := m[f.k := TriageOf(item.fields)];
      }
    }
    assert items[..|items|] == items;
    r := Some(m);
  }

  /** Once `int(idx)` has raised, the run has failed whatever follows. */
  lemma {:induction false} FilingFailSticks(t: map<int, Obj>, items: seq<Json>, j: nat)
    requires j <= |items| && FileItems(t, items[..j]).None?
    ensures FileItems(t, items).None?
    decreases |items| - j
  {
    if j < |items| {
      assert items[..j + 1][..j] == items[..j];
      FilingFailSticks(t, items, j + 1);
    } else {
      assert items[..j] == items;
    }
  }

  /** Filing a concatenation files the first part, then the second. */
  lemma {:induction false} FileItemsAppend(t: map<int, Obj>, a: seq<Json>, b: seq<Json>)
    ensures FileItems(t, a + b) ==
      match FileItems(t, a)
      case None => None
      case Some(m) => FileItems(m, b)
    decreases |b|
  {
    if b == [] {
      assert a + b == a;
    } else {
      var b' := b[..|b| - 1];
      FileItemsAppend(t, a, b');
      assert (a + b)[..|a + b| - 1] == a + b';
      assert (a + b)[|a + b| - 1] == b[|b| - 1];
      if FileItems(t, a).None? {
        FailedFilingStays(t, a + b);
      }
    }
  }

  lemma {:induction false} FailedFilingStays(t: map<int, Obj>, s: seq<Json>)
    requires s != [] && FileItems(t, s[..|s| - 1]).None?
    ensures FileItems(t, s).None?
  {
  }

  /**
   * The batch loop: each batch is sent and the items of its reply are filed,
   * until `int(idx)` raises; `sent` counts the batches sent.
   */
  method CollectTriage(batches: seq<seq<Json>>, ask: Oracle) returns (table: Option<map<int, Obj>>, sent: nat)
    ensures table == FileItems(map[], AllItems(Replies(batches, ask)))
    ensures sent == SentCount(Replies(batches, ask))
  {
    var m: map<int, Obj> := map[];
    ghost var replies := Replies(batches, ask);
    for b := 0 to |batches|
      invariant FileItems(map[], AllItems(replies[..b])) == Some(m)
    {
      var out := ask(b, batches[b]);
      var filed := FileReply(m, ReplyItems(out));
      AllItemsSnoc(replies, b);
      FileItemsAppend(map[], AllItems(replies[..b]), ReplyItems(out));
      if filed.None? {
        FirstFailure(replies, b);
        return None, b + 1;
      }
      m := filed.value;
    }
    assert replies[..|batches|] == replies;
    SentCountAll(replies);
    table, sent := Some(m), |batches|;
  }

  /** When reply j - 1 is the first whose items fail to file, exactly j batches are sent. */
  lemma {:induction false} SentCountAt(replies: seq<Json>, j: nat)
    requires 0 < j <= |replies|
    requires FileItems(map[], AllItems(replies[..j - 1])).Some?
    requires FileItems(map[], AllItems(replies[..j])).None?
    ensures SentCount(replies) == j
    decreases |replies|, 1
  {
    if |replies| == j {
      assert replies[..|replies| - 1] == replies[..j - 1];
      SentCountLastFiles(replies);
    } else {
      SentCountFailedEarlier(replies, j);
    }
  }

  /** A first failure before the last reply: the last batch is not sent, and the count is that of the replies without it. */
  lemma {:induction false} SentCountFailedEarlier(replies: seq<Json>, j: nat)
    requires 0 < j < |replies|
    requires FileItems(map[], AllItems(replies[..j - 1])).Some?
    requires FileItems(map[], AllItems(replies[..j])).None?
    ensures SentCount(replies) == j
    decreases |replies|, 0
  {
    FirstFailureInFront(replies, j);
    SentCountLastFails(replies);
    SentCountAt(replies[..|replies| - 1], j);
  }

  /** When the replies before the last one file, every batch is sent. */
  lemma SentCountLastFiles(replies: seq<Json>)
    requires replies != [] && FileItems(map[], AllItems(replies[..|replies| - 1])).Some?
    ensures SentCount(replies) == |replies|
  {
  }

  /** When the replies before the last one already fail, the last batch is not sent. */
  lemma SentCountLastFails(replies: seq<Json>)
    requires replies != [] && FileItems(map[], AllItems(replies[..|replies| - 1])).None?
    ensures SentCount(replies) == SentCount(replies[..|replies| - 1])
  {
  }

  /** A first failure before the last reply is one of the replies without it, and they already fail. */
  lemma FirstFailureInFront(replies: seq<Json>, j: nat)
    requires 0 < j < |replies|
    requires FileItems(map[], AllItems(replies[..j - 1])).Some?
    requires FileItems(map[], AllItems(replies[..j])).None?
    ensures FileItems(map[], AllItems(replies[..|replies| - 1][..j - 1])).Some?
    ensures FileItems(map[], AllItems(replies[..|replies| - 1][..j])).None?
    ensures FileItems(map[], AllItems(replies[..|replies| - 1])).None?
  {
    var front := replies[..|replies| - 1];
    assert front[..j] == replies[..j];
    assert front[..j - 1] == replies[..j - 1];
    AllItemsFailSticks(front, j);
  }

  /** When reply b is the first whose items fail to file, filing fails and b + 1 batches are sent. */
  lemma FirstFailure(replies: seq<Json>, b: nat)
    requires b < |replies|
    requires FileItems(map[], AllItems(replies[..b])).Some?
    requires FileItems(map[], AllItems(replies[..b + 1])).None?
    ensures FileItems(map[], AllItems(replies)).None?
    ensures SentCount(replies) == b + 1
  {
    AllItemsFailSticks(replies, b + 1);
    SentCountAt(replies, b + 1);
  }

  /** When every reply files, every batch is sent. */
  lemma SentCountAll(replies: seq<Json>)
    requires FileItems(map[], AllItems(replies)).Some?
    ensures SentCount(replies) == |replies|
  {
    if replies != [] && FileItems(map[], AllItems(replies[..|replies| - 1])).None? {
      AllItemsFailSticks(replies, |replies| - 1);
      assert false;
    }
  }

  lemma AllItemsSnoc(replies: seq<Json>, b: nat)
    requires b < |replies|
    ensures AllItems(replies[..b + 1]) == AllItems(replies[..b]) + ReplyItems(replies[b])
  {
    var ss := seq(b + 1, i requires 0 <= i < b + 1 => ReplyItems(replies[..b + 1][i]));
    var ss' := seq(b, i requires 0 <= i < b => ReplyItems(replies[..b][i]));
    assert ss == ss' + [ReplyItems(replies[b])];
    FlattenSnoc(ss', ReplyItems(replies[b]));
  }

  lemma {:induction false} AllItemsFailSticks(replies: seq<Json>, b: nat)
    requires b <= |replies| && FileItems(map[], AllItems(replies[..b])).None?
    ensures FileItems(map[], AllItems(replies)).None?
    decreases |replies| - b
  {
    if b < |replies| {
      AllItemsSnoc(replies, b);
      FileItemsAppend(map[], AllItems(replies[..b]), ReplyItems(replies[b]));
      AllItemsFailSticks(replies, b + 1);
    } else {
      assert replies[..b] == replies;
    }
  }

  /** The result loop, filling the service into the stored dicts as it goes. */
  method AssembleResults(sha1: Sha1, t: map<int, Obj>, clusters: seq<Obj>) returns (r: Option<Assembly>)
    ensures r == Assemble(sha1, t, clusters)
  {
    var table := t;
    var results: seq<Obj> := [];
    var links: seq<Option<int>> := [];
    for i := 0 to |clusters|
      invariant Assemble(sha1, t, clusters[..i]) == Some(Assembly(table, results, links))
    {
      assert clusters[..i + 1][..i] == clusters[..i];
      var c := clusters[i];
      var idx := ClusterIdx(c, i);
      var k := ToInt(idx);
      if k.None? {
        AssembleFailSticks(sha1, t, clusters, i + 1);
        return None;
      }
      var triage := Lookup(table, k.value);
      var service := ServiceOf(SampleSource(c, "raw"), c);
      results := results + [ResultEntry(sha1, c, idx, triage)];
      if triage != map[] {
        table := table[k.value := Filled(triage, service)];
        links := links + [Some(k.value)];
      } else {
        links := links + [None];
      }
    }
    assert clusters[..|clusters|] == clusters;
    r := Some(Assembly(table, results, links));
  }

  /** Writing the results out: each entry that shares a table dict shows its final contents. */
  method WriteOut(st: Assembly) returns (out: seq<Obj>)
    ensures out == Written(st)
  {
    out := [];
    for i := 0 to |st.results|
      invariant out == Written(st)[..i]
    {
      var e := st.results[i];
      if i < |st.links| && st.links[i].Some? && st.links[i].value in st.table {
        e := e["triage" := JObj(st.table[st.links[i].value])];
      }
      assert Written(st)[..i + 1] == out + [e];
      out := out + [e];
    }
    assert Written(st)[..|st.results|] == Written(st);
  }

  lemma {:induction false} AssembleFailSticks(sha1: Sha1, t: map<int, Obj>, clusters: seq<Obj>, i: nat)
    requires i <= |clusters| && Assemble(sha1, t, clusters[..i]).None?
    ensures Assemble(sha1, t, clusters).None?
    decreases |clusters| - i
  {
    if i < |clusters| {
      assert clusters[..i + 1][..i] == clusters[..i];
      AssembleFailSticks(sha1, t, clusters, i + 1);
    } else {
      assert clusters[..i] == clusters;
    }
  }

  /** `run` of agents/llm_triage.py, with the loaded clusters, the oracle and SHA-1 as parameters. */
  method RunTriage(clusters: seq<Obj>, ask: Oracle, sha1: Sha1) returns (run: TriageRun)
    ensures run == TriageStage(clusters, ask, sha1)
    ensures clusters == [] ==> run.sent == [] && run.items == Some([])
  {
    if clusters == [] {
      return TriageRun([], Some([]));
    }
    var compact := BuildCompactClusters(clusters);
    var batches := Chunks(compact, BatchSize);
    var table, sent := CollectTriage(batches, ask);
    if table.None? {
      return TriageRun(batches[..sent], None);
    }
    var st := AssembleResults(sha1, table.value, clusters);
    if st.None? {
      return TriageRun(batches, None);
    }
    var written := WriteOut(st.value);
    run := TriageRun(batches, Some(written));
  }
}
