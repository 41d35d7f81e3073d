/**
 * The log preprocessor: `_normalize` maps one raw log record to the minimal
 * event schema, `_cluster` groups the normalised events by
 * (java class, stripped message), and `run` stores both in the pipeline
 * context. tools/log_preprocessor.py and agents/log_preprocessor.py carry the
 * same `_normalize` and `_cluster`; they are modelled once here.
 *
 * Python's defaultdict keeps its keys in insertion order, `sorted` and
 * `list.sort` are stable; the model spells these out as the first-seen key
 * order and two stable insertion sorts.
 */
module LogPreprocessor {
  import opened JsonValues
  import opened StringOrder
  import opened Sequences

  /** A normalised event: the dict `_normalize` returns. */
  datatype Event = Event(
    timestamp: Json,
    level: Json,
    service: Json,
    message: Json,
    javaClass: Json,
    traceId: Json,
    raw: Obj)

  /** The source value of a field with a fallback: `src.get(first) or src.get(second)`. */
  function FirstTruthy(src: Obj, first: string, second: string): Json {
    Or(Get(src, first), Get(src, second))
  }

  /** `_normalize`: each field is the first truthy alternative; the record itself is kept as `raw`. */
  function Normalize(src: Obj): (e: Event)
    ensures e.raw == src
    ensures e.javaClass == Get(src, "athena_java_class")
    ensures Truthy(e.timestamp) <==> Truthy(Get(src, "@timestamp")) || Truthy(Get(src, "timestamp"))
    ensures Truthy(Get(src, "@timestamp")) ==> e.timestamp == src["@timestamp"]
    ensures Truthy(e.message) <==> Truthy(Get(src, "athena_message")) || Truthy(Get(src, "log"))
    ensures Truthy(Get(src, "athena_message")) ==> e.message == src["athena_message"]
    ensures Truthy(e.level) <==> Truthy(Get(src, "athena_level")) || Truthy(Get(src, "level"))
    ensures Truthy(Get(src, "athena_level")) ==> e.level == src["athena_level"]
    ensures Truthy(e.service) <==> Truthy(Get(src, "AthenaServiceName")) || Truthy(Get(src, "athena_service"))
    ensures Truthy(Get(src, "AthenaServiceName")) ==> e.service == src["AthenaServiceName"]
    ensures Truthy(e.traceId) <==> Truthy(Get(src, "athena_trace_id")) || Truthy(Get(src, "traceId"))
    ensures Truthy(Get(src, "athena_trace_id")) ==> e.traceId == src["athena_trace_id"]
  {
    Event(
      FirstTruthy(src, "@timestamp", "timestamp"),
      FirstTruthy(src, "athena_level", "level"),
      FirstTruthy(src, "AthenaServiceName", "athena_service"),
      FirstTruthy(src, "athena_message", "log"),
      Get(src, "athena_java_class"),
      FirstTruthy(src, "athena_trace_id", "traceId"),
      src)
  }

  function EventJson(e: Event): Json {
    JObj(map[
      "timestamp" := e.timestamp,
      "level" := e.level,
      "service" := e.service,
      "message" := e.message,
      "java_class" := e.javaClass,
      "trace_id" := e.traceId,
      "raw" := JObj(e.raw)])
  }

  const UnknownClass: string := "<unknown_class>"

  /** The grouping key of `_cluster`. */
  datatype Key = Key(javaClass: Json, message: string)

  /** `(e.get("java_class") or "<unknown_class>", (e.get("message") or "").strip())` */
  function KeyOf(e: Event): Key {
    Key(Or(e.javaClass, JStr(UnknownClass)), Strip(Text(e.message)))
  }

  /**
   * The sort key `x.get("timestamp") or ""`, for string timestamps: a
   * timestamp that is not a string sorts as "".
   */
  function TsKey(e: Event): string {
    Text(e.timestamp)
  }

  /** One output cluster of `_cluster`. */
  datatype Cluster = Cluster(
    javaClass: Json,
    message: string,
    count: nat,
    sample: Event,
    timestamps: seq<Json>)

  function ClusterKey(c: Cluster): Key {
    Key(c.javaClass, c.message)
  }

  function ClusterJson(c: Cluster): Json {
    JObj(map[
      "java_class" := c.javaClass,
      "message" := JStr(c.message),
      "count" := JInt(c.count),
      "sample" := EventJson(c.sample),
      "timestamps" := JArr(c.timestamps)])
  }

  /** The set of keys occurring in `logs`. */
  function KeySet(logs: seq<Event>): set<Key>
    decreases |logs|
  {
    if logs == [] then {} else KeySet(logs[..|logs| - 1]) + {KeyOf(logs[|logs| - 1])}
  }

  /** The keys of the defaultdict in insertion order: each key once, where it is first seen. */
  function FirstSeenKeys(logs: seq<Event>): (ks: seq<Key>)
    decreases |logs|
  {
    if logs == [] then []
    else
      var prev := FirstSeenKeys(logs[..|logs| - 1]);
      var k := KeyOf(logs[|logs| - 1]);
      if k in prev then prev else prev + [k]
  }

  /** No key is listed twice. */
  lemma {:induction false} FirstSeenKeysDistinct(logs: seq<Event>)
    ensures Distinct(FirstSeenKeys(logs))
    decreases |logs|
  {
    if logs != [] {
      var prev := FirstSeenKeys(logs[..|logs| - 1]);
      var k := KeyOf(logs[|logs| - 1]);
      FirstSeenKeysDistinct(logs[..|logs| - 1]);
      if k !in prev {
        var ks := prev + [k];
        assert FirstSeenKeys(logs) == ks;
        forall p, q | 0 <= p < q < |ks| ensures ks[p] != ks[q] {
          if q == |prev| {
            assert ks[p] == prev[p] && ks[q] == k;
          } else {
            assert ks[p] == prev[p] && ks[q] == prev[q];
          }
        }
      }
    }
  }

  /** The events grouped under key `k`, in input order (the defaultdict's list). */
  function Members(logs: seq<Event>, k: Key): (ms: seq<Event>)
    decreases |logs|
  {
    if logs == [] then []
    else
      var last := logs[|logs| - 1];
      Members(logs[..|logs| - 1], k) + (if KeyOf(last) == k then [last] else [])
  }

  /** Stable insertion into a time-sorted list: `x` goes before the first strictly later event. */
  function InsertByTime(x: Event, t: seq<Event>): (r: seq<Event>)
    ensures |r| == |t| + 1
    ensures multiset(r) == multiset(t) + multiset{x}
    decreases |t|
  {
    if t == [] then [x]
    else if !LexLe(TsKey(t[0]), TsKey(x)) then [x] + t
    else
      assert t == [t[0]] + t[1..];
      [t[0]] + InsertByTime(x, t[1..])
  }

  /** `sorted(items, key=lambda x: x.get("timestamp") or "")`, a stable sort. */
  function SortByTime(s: seq<Event>): (r: seq<Event>)
    ensures |r| == |s|
    ensures multiset(r) == multiset(s)
    decreases |s|
  {
    if s == [] then []
    else
      assert s == s[..|s| - 1] + [s[|s| - 1]];
      InsertByTime(s[|s| - 1], SortByTime(s[..|s| - 1]))
  }

  function TimestampsOf(s: seq<Event>): (ts: seq<Json>)
    ensures |ts| == |s| && forall i :: 0 <= i < |s| ==> ts[i] == s[i].timestamp
  {
    seq(|s|, i requires 0 <= i < |s| => s[i].timestamp)
  }

  /** The cluster dict built for one group. */
  function MakeCluster(k: Key, items: seq<Event>): (c: Cluster)
    requires items != []
    ensures ClusterKey(c) == k && c.count == |items| == |c.timestamps|
  {
    var sorted := SortByTime(items);
    Cluster(k.javaClass, k.message, |items|, sorted[0], TimestampsOf(sorted))
  }

  /** One cluster per key of `ks`, in that order, before the final sort. */
  function ClustersInKeyOrder(logs: seq<Event>, ks: seq<Key>): (cs: seq<Cluster>)
    requires forall k :: k in ks ==> Members(logs, k) != []
    ensures |cs| == |ks|
  {
    seq(|ks|, j requires 0 <= j < |ks| => MakeCluster(ks[j], Members(logs, ks[j])))
  }

  lemma ClustersInKeyOrderSnoc(logs: seq<Event>, ks: seq<Key>, k: Key)
    requires forall k' :: k' in ks + [k] ==> Members(logs, k') != []
    ensures ClustersInKeyOrder(logs, ks + [k]) == ClustersInKeyOrder(logs, ks) + [MakeCluster(k, Members(logs, k))]
  {
    assert forall k' :: k' in ks ==> k' in ks + [k];
  }

  /** Stable insertion into a list sorted by descending count: `x` goes before the first smaller count. */
  function InsertByCount(x: Cluster, t: seq<Cluster>): (r: seq<Cluster>)
    ensures |r| == |t| + 1
    ensures forall c :: c in r <==> c == x || c in t
    ensures multiset(r) == multiset(t) + multiset{x}
    decreases |t|
  {
    if t == [] then [x]
    else if x.count > t[0].count then [x] + t
    else
      assert t == [t[0]] + t[1..];
      [t[0]] + InsertByCount(x, t[1..])
  }

  /** `clusters.sort(key=lambda c: c["count"], reverse=True)`, a stable sort. */
  function SortByCount(s: seq<Cluster>): (r: seq<Cluster>)
    ensures |r| == |s|
    ensures forall c :: c in r <==> c in s
    ensures multiset(r) == multiset(s)
    decreases |s|
  {
    if s == [] then []
    else
      assert s == s[..|s| - 1] + [s[|s| - 1]];
      InsertByCount(s[|s| - 1], SortByCount(s[..|s| - 1]))
  }

  lemma FirstSeenKeysHaveMembers(logs: seq<Event>)
    ensures forall k :: k in FirstSeenKeys(logs) ==> Members(logs, k) != []
  {
    forall k | k in FirstSeenKeys(logs)
      ensures Members(logs, k) != []
    {
      KeysSeen(logs, k);
    }
  }

  /** What `_cluster` returns, as a function of its input. */
  function Clusters(logs: seq<Event>): seq<Cluster> {
    FirstSeenKeysHaveMembers(logs);
    SortByCount(ClustersInKeyOrder(logs, FirstSeenKeys(logs)))
  }

  /** Appending one event extends the first-seen keys. */
  lemma AppendEventKeys(logs: seq<Event>, i: nat)
    requires i < |logs|
    ensures FirstSeenKeys(logs[..i + 1]) ==
      (if KeyOf(logs[i]) in FirstSeenKeys(logs[..i]) then FirstSeenKeys(logs[..i])
       else FirstSeenKeys(logs[..i]) + [KeyOf(logs[i])])
  {
    assert logs[..i + 1][..i] == logs[..i];
  }

  /** Appending one event extends the member list of its own key only. */
  lemma AppendEventMembers(logs: seq<Event>, i: nat, k: Key)
    requires i < |logs|
    ensures Members(logs[..i + 1], k) ==
      Members(logs[..i], k) + (if KeyOf(logs[i]) == k then [logs[i]] else [])
  {
    assert logs[..i + 1][..i] == logs[..i];
  }

  lemma {:induction false} KeysSeen(logs: seq<Event>, k: Key)
    ensures k in FirstSeenKeys(logs) <==> k in KeySet(logs)
    ensures Members(logs, k) == [] <==> k !in KeySet(logs)
    decreases |logs|
  {
    if logs != [] {
      KeysSeen(logs[..|logs| - 1], k);
    }
  }

  /** The state of the grouping loop after the events `done`. */
  ghost predicate GroupedSoFar(done: seq<Event>, order: seq<Key>, groups: map<Key, seq<Event>>) {
    && order == FirstSeenKeys(done)
    && (forall k :: k in groups <==> k in order)
    && (forall k :: k in groups ==> groups[k] == Members(done, k))
  }

  lemma GroupStep(logs: seq<Event>, i: nat, order: seq<Key>, groups: map<Key, seq<Event>>)
    requires i < |logs| && GroupedSoFar(logs[..i], order, groups)
    ensures var k := KeyOf(logs[i]);
      if k in groups then GroupedSoFar(logs[..i + 1], order, groups[k := groups[k] + [logs[i]]])
      else GroupedSoFar(logs[..i + 1], order + [k], groups[k := [logs[i]]])
  {
    if KeyOf(logs[i]) in groups {
      GroupSeenKey(logs, i, order, groups);
    } else {
      GroupNewKey(logs, i, order, groups);
    }
  }

  /** An event whose key was seen before joins that key's group. */
  lemma GroupSeenKey(logs: seq<Event>, i: nat, order: seq<Key>, groups: map<Key, seq<Event>>)
    requires i < |logs| && GroupedSoFar(logs[..i], order, groups) && KeyOf(logs[i]) in groups
    ensures GroupedSoFar(logs[..i + 1], order, groups[KeyOf(logs[i]) := groups[KeyOf(logs[i])] + [logs[i]]])
  {
    var k := KeyOf(logs[i]);
    AppendEventKeys(logs, i);
    var groups' := groups[k := groups[k] + [logs[i]]];
    forall k' | k' in groups'
      ensures groups'[k'] == Members(logs[..i + 1], k')
    {
      AppendEventMembers(logs, i, k');
    }
  }

  /** An event with a new key opens a group of its own, last in the order. */
  lemma GroupNewKey(logs: seq<Event>, i: nat, order: seq<Key>, groups: map<Key, seq<Event>>)
    requires i < |logs| && GroupedSoFar(logs[..i], order, groups) && KeyOf(logs[i]) !in groups
    ensures GroupedSoFar(logs[..i + 1], order + [KeyOf(logs[i])], groups[KeyOf(logs[i]) := [logs[i]]])
  {
    var k := KeyOf(logs[i]);
    AppendEventKeys(logs, i);
    KeysSeen(logs[..i], k);
    var groups' := groups[k := [logs[i]]];
    forall k' | k' in groups'
      ensures groups'[k'] == Members(logs[..i + 1], k')
    {
      AppendEventMembers(logs, i, k');
    }
  }

  /** The first loop of `_cluster`: the defaultdict of groups, with its keys in insertion order. */
  method GroupEvents(logs: seq<Event>) returns (order: seq<Key>, groups: map<Key, seq<Event>>)
    ensures GroupedSoFar(logs, order, groups)
  {
    order := [];
    groups := map[];
    for i := 0 to |logs|
      invariant GroupedSoFar(logs[..i], order, groups)
    {
      var e := logs[i];
      var k := KeyOf(e);
      GroupStep(logs, i, order, groups);
      if k in groups {
        groups := groups[k := groups[k] + [e]];
      } else {
        order := order + [k];
        groups := groups[k := [e]];
      }
    }
    assert logs[..|logs|] == logs;
  }

  /** `_cluster`: group, build one cluster per key in insertion order, then sort by count. */
  method ClusterEvents(logs: seq<Event>) returns (clusters: seq<Cluster>)
    ensures clusters == Clusters(logs)
  {
    var order, groups := GroupEvents(logs);
    FirstSeenKeysHaveMembers(logs);
    clusters := [];
    for j := 0 to |order|
      invariant clusters == ClustersInKeyOrder(logs, order[..j])
    {
      BuildStep(logs, order, groups, j);
      clusters := clusters + [MakeCluster(order[j], groups[order[j]])];
    }
    assert order[..|order|] == order;
    clusters := SortByCount(clusters);
  }

  /** One turn of the cluster-building loop: the cluster of the next key in first-seen order is appended. */
  lemma BuildStep(logs: seq<Event>, order: seq<Key>, groups: map<Key, seq<Event>>, j: nat)
    requires GroupedSoFar(logs, order, groups) && j < |order|
    requires forall k :: k in FirstSeenKeys(logs) ==> Members(logs, k) != []
    ensures order[j] in groups
    ensures ClustersInKeyOrder(logs, order[..j + 1]) == ClustersInKeyOrder(logs, order[..j]) + [MakeCluster(order[j], groups[order[j]])]
  {
    assert order[..j + 1] == order[..j] + [order[j]];
    assert forall k :: k in order[..j + 1] ==> k in order;
    ClustersInKeyOrderSnoc(logs, order[..j], order[j]);
  }

  /** `run` of tools/log_preprocessor.py with the log loading abstracted: what it returns and the two files it writes. */
  datatype PreprocessOutput = PreprocessOutput(context: Obj, rawLogsFile: Json, clustersFile: Json)

  /**
   * `run`: normalise every loaded record, cluster them, and store both lists
   * in a copy of the context (an absent context is an empty one).
   */
  method Preprocess(context: Obj, rawLogs: seq<Obj>) returns (out: PreprocessOutput, norm: seq<Event>, clusters: seq<Cluster>)
    ensures |norm| == |rawLogs| && forall i :: 0 <= i < |rawLogs| ==> norm[i] == Normalize(rawLogs[i])
    ensures clusters == Clusters(norm)
    ensures out.context.Keys == context.Keys + {"raw_logs", "clusters"}
    ensures forall k :: k in context && k != "raw_logs" && k != "clusters" ==> out.context[k] == context[k]
    ensures out.context["raw_logs"] == JArr(EventsJson(norm))
    ensures out.context["clusters"] == JArr(ClustersJson(clusters))
    ensures out.rawLogsFile == JObj(map["count" := JInt(|rawLogs|), "items" := JArr(EventsJson(norm))])
    ensures out.clustersFile == JObj(map[
      "cluster_count" := JInt(|clusters|),
      "log_count" := JInt(|rawLogs|),
      "clusters" := JArr(ClustersJson(clusters))])
  {
    norm := seq(|rawLogs|, i requires 0 <= i < |rawLogs| => Normalize(rawLogs[i]));
    var rawFile := JObj(map["count" := JInt(|norm|), "items" := JArr(EventsJson(norm))]);
    clusters := ClusterEvents(norm);
    var clustersFile := JObj(map[
      "cluster_count" := JInt(|clusters|),
      "log_count" := JInt(|norm|),
      "clusters" := JArr(ClustersJson(clusters))]);
    var ctx := context;
    ctx := ctx["raw_logs" := JArr(EventsJson(norm))];
    ctx := ctx["clusters" := JArr(ClustersJson(clusters))];
    out := PreprocessOutput(ctx, rawFile, clustersFile);
  }

  function EventsJson(es: seq<Event>): (r: seq<Json>)
    ensures |r| == |es|
  {
    seq(|es|, i requires 0 <= i < |es| => EventJson(es[i]))
  }

  function ClustersJson(cs: seq<Cluster>): (r: seq<Json>)
    ensures |r| == |cs|
  {
    seq(|cs|, i requires 0 <= i < |cs| => ClusterJson(cs[i]))
  }

  /**
   * `_load_es_export` of agents/log_preprocessor.py over the loaded search
   * response: the `_source` of every hit, an empty dict where it is missing or empty.
   */
  function EsExportSources(data: Json): (srcs: seq<Obj>)
    ensures |srcs| == |Elements(GetOr(AsObj(GetOr(AsObj(data), "hits", JObj(map[]))), "hits", JArr([])))|
  {
    var hits := Elements(GetOr(AsObj(GetOr(AsObj(data), "hits", JObj(map[]))), "hits", JArr([])));
    seq(|hits|, i requires 0 <= i < |hits| => AsObj(Or(GetOr(AsObj(hits[i]), "_source", JObj(map[])), JObj(map[]))))
  }
}
