/**
 * The summariser (`build_summary` in tools/summary.py and its older copy in
 * agents/summary.py, which compute the same thing): counts of triaged items
 * per label and per priority, the number of items labelled "internal_error"
 * with priority "high", and the number of raw logs.
 *
 * The triaged items and the decoded raw-log file are parameters.
 */
module Summary {
  import opened JsonValues
  import opened Sequences

  /** `it.get("triage", {})`, read as a dict. */
  function TriageOf(it: Obj): Obj {
    AsObj(GetOr(it, "triage", JObj(map[])))
  }

  /** `(triage.get(key) or "").strip()`. */
  function TriageText(it: Obj, key: string): string {
    Strip(Text(Or(Get(TriageOf(it), key), JStr(""))))
  }

  function LabelOf(it: Obj): string {
    TriageText(it, "label")
  }

  function PriorityOf(it: Obj): string {
    TriageText(it, "priority")
  }

  predicate InternalHigh(it: Obj) {
    LabelOf(it) == "internal_error" && PriorityOf(it) == "high"
  }

  /** The items' labels, in order. */
  function Labels(items: seq<Obj>): (r: seq<string>)
    ensures |r| == |items|
    decreases |items|
  {
    if items == [] then [] else Labels(items[..|items| - 1]) + [LabelOf(items[|items| - 1])]
  }

  /** The items' priorities, in order. */
  function Priorities(items: seq<Obj>): (r: seq<string>)
    ensures |r| == |items|
    decreases |items|
  {
    if items == [] then [] else Priorities(items[..|items| - 1]) + [PriorityOf(items[|items| - 1])]
  }

  /** A counter dict after counting the given values; blank values are not counted. */
  function Tally(xs: seq<string>): map<string, nat>
    decreases |xs|
  {
    if xs == [] then map[]
    else
      Bump(Tally(xs[..|xs| - 1]), xs[|xs| - 1])
  }

  /** `counter[x] = counter.get(x, 0) + 1` for a non-blank x. */
  function Bump(m: map<string, nat>, x: string): map<string, nat> {
    if x == "" then m else m[x := Entry(m, x) + 1]
  }

  /** The entry for a value, or 0 when it is not a key. */
  function Entry(m: map<string, nat>, k: string): nat {
    if k in m then m[k] else 0
  }

  lemma TallySnoc(xs: seq<string>, x: string)
    ensures Tally(xs + [x]) == Bump(Tally(xs), x)
  {
    assert (xs + [x])[..|xs|] == xs;
  }

  /** The number of items labelled "internal_error" with priority "high". */
  function InternalHighCount(items: seq<Obj>): nat
    decreases |items|
  {
    if items == [] then 0
    else InternalHighCount(items[..|items| - 1]) + (if InternalHigh(items[|items| - 1]) then 1 else 0)
  }

  /** `len(x)` on a decoded value: lists, strings and dicts have a length; other values read as 0. */
  function Len(j: Json): nat {
    match j
    case JArr(a) => |a|
    case JStr(s) => |s|
    case JObj(m) => |m.Keys|
    case _ => 0
  }

  /** `_load_raw_logs_count` on the decoded file (a missing or unreadable file decodes as `[]`). */
  function RawLogsCount(data: Json): nat {
    if data.JObj? then Len(Or(Or(Get(data.fields, "logs"), Get(data.fields, "items")), JArr([])))
    else if data.JArr? then |data.items|
    else 0
  }

  datatype SummaryRecord = SummaryRecord(
    logCount: nat,
    clusterCount: nat,
    triagedClusterCount: nat,
    byLabel: map<string, nat>,
    byPriority: map<string, nat>,
    internalHighCount: nat)

  /** The summary as the orchestrator reads it. */
  function ToJson(s: SummaryRecord): Obj {
    map[
      "log_count" := JInt(s.logCount),
      "cluster_count" := JInt(s.clusterCount),
      "triaged_cluster_count" := JInt(s.triagedClusterCount),
      "by_label" := JObj(map k | k in s.byLabel :: JInt(s.byLabel[k])),
      "by_priority" := JObj(map k | k in s.byPriority :: JInt(s.byPriority[k])),
      "internal_high_count" := JInt(s.internalHighCount)]
  }

  /** `build_summary` over the triaged items and the raw-log file. */
  method BuildSummary(items: seq<Obj>, rawLogs: Json) returns (s: SummaryRecord)
    ensures s.logCount == RawLogsCount(rawLogs)
    ensures s.clusterCount == |items| && s.triagedClusterCount == |items|
    ensures s.byLabel == Tally(Labels(items))
    ensures s.byPriority == Tally(Priorities(items))
    ensures s.internalHighCount == InternalHighCount(items)
  {
    var byLabel: map<string, nat> := map[];
    var byPriority: map<string, nat> := map[];
    var internalHigh := 0;
    for i := 0 to |items|
      invariant byLabel == Tally(Labels(items[..i]))
      invariant byPriority == Tally(Priorities(items[..i]))
      invariant internalHigh == InternalHighCount(items[..i])
    {
      SummaryStep(items, i);
      var lab := LabelOf(items[i]);
      var priority := PriorityOf(items[i]);
      ghost var before := (byLabel, byPriority, internalHigh);
      if lab != "" {
        byLabel := byLabel[lab := (if lab in byLabel then byLabel[lab] else 0) + 1];
      }
      assert byLabel == Bump(before.0, lab);
      if priority != "" {
        byPriority := byPriority[priority := (if priority in byPriority then byPriority[priority] else 0) + 1];
      }
      assert byPriority == Bump(before.1, priority);
      if lab == "internal_error" && priority == "high" {
        internalHigh := internalHigh + 1;
      }
    }
    assert items[..|items|] == items;
    s := SummaryRecord(RawLogsCount(rawLogs), |items|, |items|, byLabel, byPriority, internalHigh);
  }

  /** What one more item adds to each counter. */
  lemma SummaryStep(items: seq<Obj>, i: nat)
    requires i < |items|
    ensures Tally(Labels(items[..i + 1])) == Bump(Tally(Labels(items[..i])), LabelOf(items[i]))
    ensures Tally(Priorities(items[..i + 1])) == Bump(Tally(Priorities(items[..i])), PriorityOf(items[i]))
    ensures InternalHighCount(items[..i + 1]) == InternalHighCount(items[..i]) + if InternalHigh(items[i]) then 1 else 0
  {
    assert items[..i + 1][..i] == items[..i];
    TallySnoc(Labels(items[..i]), LabelOf(items[i]));
    TallySnoc(Priorities(items[..i]), PriorityOf(items[i]));
  }

  // ---------------------------------------------------------------------
  // What the counters mean
  // ---------------------------------------------------------------------

  /** A value is a key of the counter exactly when it is non-blank and occurs; its entry is its number of occurrences. */
  lemma {:induction false} TallyCounts(xs: seq<string>)
    ensures forall x :: x in Tally(xs) <==> x != "" && x in xs
    ensures forall x :: x in Tally(xs) ==> Tally(xs)[x] == Count(xs, x)
    decreases |xs|
  {
    if xs != [] {
      var p := xs[..|xs| - 1];
      TallyCounts(p);
      assert xs == p + [xs[|xs| - 1]];
      forall x | x in Tally(xs)
        ensures Tally(xs)[x] == Count(xs, x)
      {
        if x !in Tally(p) {
          CountAbsentZero(p, x);
        }
      }
    }
  }

  lemma {:induction false} CountAbsentZero(xs: seq<string>, x: string)
    requires x !in xs
    ensures Count(xs, x) == 0
    decreases |xs|
  {
    if xs != [] {
      assert xs[|xs| - 1] in xs;
      assert forall y :: y in xs[..|xs| - 1] ==> y in xs;
      CountAbsentZero(xs[..|xs| - 1], x);
    }
  }

  /** Every "internal_error"/"high" item is counted under both its label and its priority. */
  lemma {:induction false} InternalHighBounded(items: seq<Obj>)
    ensures InternalHighCount(items) <= Entry(Tally(Labels(items)), "internal_error")
    ensures InternalHighCount(items) <= Entry(Tally(Priorities(items)), "high")
    decreases |items|
  {
    if items != [] {
      var p := items[..|items| - 1];
      var last := items[|items| - 1];
      InternalHighBounded(p);
      assert items == p + [last];
      InternalHighLabelStep(p, last);
      InternalHighPriorityStep(p, last);
    }
  }

  /** One more item keeps the bound on the label entry. */
  lemma InternalHighLabelStep(p: seq<Obj>, last: Obj)
    requires InternalHighCount(p) <= Entry(Tally(Labels(p)), "internal_error")
    ensures InternalHighCount(p + [last]) <= Entry(Tally(Labels(p + [last])), "internal_error")
  {
    InternalHighSnoc(p + [last]);
    assert (p + [last])[..|p|] == p;
    CountedBoth(InternalHighCount(p), Labels(p), LabelOf(last), Labels(p + [last]), InternalHigh(last), "internal_error");
  }

  /** One more item keeps the bound on the priority entry. */
  lemma InternalHighPriorityStep(p: seq<Obj>, last: Obj)
    requires InternalHighCount(p) <= Entry(Tally(Priorities(p)), "high")
    ensures InternalHighCount(p + [last]) <= Entry(Tally(Priorities(p + [last])), "high")
  {
    InternalHighSnoc(p + [last]);
    assert (p + [last])[..|p|] == p;
    CountedBoth(InternalHighCount(p), Priorities(p), PriorityOf(last), Priorities(p + [last]), InternalHigh(last), "high");
  }

  /** The three per-item sequences and counts grow by the last item. */
  lemma InternalHighSnoc(items: seq<Obj>)
    requires items != []
    ensures InternalHighCount(items) == InternalHighCount(items[..|items| - 1]) + if InternalHigh(items[|items| - 1]) then 1 else 0
    ensures Labels(items) == Labels(items[..|items| - 1]) + [LabelOf(items[|items| - 1])]
    ensures Priorities(items) == Priorities(items[..|items| - 1]) + [PriorityOf(items[|items| - 1])]
  {
  }

  /** A bound on a counter entry survives counting one more value, which adds one exactly when it is that key. */
  lemma CountedBoth(c: nat, xs: seq<string>, x: string, ys: seq<string>, hit: bool, key: string)
    requires key != "" && c <= Entry(Tally(xs), key)
    requires hit ==> x == key
    requires ys == xs + [x]
    ensures c + (if hit then 1 else 0) <= Entry(Tally(ys), key)
  {
    TallySnoc(xs, x);
    BumpEntry(Tally(xs), x, key);
  }

  /** Counting a value adds one to its own entry and leaves the others. */
  lemma BumpEntry(m: map<string, nat>, x: string, k: string)
    ensures Entry(Bump(m, x), k) == Entry(m, k) + if x == k && x != "" then 1 else 0
  {
  }

  // ---------------------------------------------------------------------
  // Totals
  // ---------------------------------------------------------------------

  ghost function PickKey(m: map<string, nat>): (k: string)
    requires m != map[]
    ensures k in m
  {
    var k :| k in m.Keys;
    k
  }

  /** The sum of a counter's entries. */
  ghost function MapSum(m: map<string, nat>): nat
    decreases |m.Keys|
  {
    if m == map[] then 0
    else
      var k := PickKey(m);
      assert |(m - {k}).Keys| < |m.Keys| by { assert (m - {k}).Keys == m.Keys - {k}; }
      m[k] + MapSum(m - {k})
  }

  /** The sum can be taken from any key first. */
  lemma {:induction false} MapSumAt(m: map<string, nat>, k: string)
    requires k in m
    ensures MapSum(m) == m[k] + MapSum(m - {k})
    decreases |m.Keys|
  {
    var j := PickKey(m);
    if j != k {
      assert (m - {j}).Keys == m.Keys - {j};
      MapSumAt(m - {j}, k);
      assert (m - {k}).Keys == m.Keys - {k};
      MapSumAt(m - {k}, j);
      assert m - {j} - {k} == m - {k} - {j};
    }
  }

  lemma MapSumBump(m: map<string, nat>, x: string)
    ensures MapSum(m[x := Entry(m, x) + 1]) == MapSum(m) + 1
  {
    var m' := m[x := Entry(m, x) + 1];
    MapSumAt(m', x);
    assert m' - {x} == m - {x};
    if x in m {
      MapSumAt(m, x);
    } else {
      assert m - {x} == m;
    }
  }

  /** The entries of a counter add up to the number of non-blank values. */
  lemma {:induction false} TallyTotal(xs: seq<string>)
    ensures MapSum(Tally(xs)) == |xs| - Count(xs, "")
    decreases |xs|
  {
    if xs != [] {
      var p := xs[..|xs| - 1];
      TallyTotal(p);
      CountAtMost(p, "");
      var x := xs[|xs| - 1];
      if x != "" {
        MapSumBump(Tally(p), x);
      }
    }
  }

  lemma {:induction false} CountAtMost(xs: seq<string>, x: string)
    ensures Count(xs, x) <= |xs|
    decreases |xs|
  {
    if xs != [] {
      CountAtMost(xs[..|xs| - 1], x);
    }
  }

  /**
   * The summary's invariants: both cluster counts are the number of items,
   * the label and priority counters each add up to at most that number, and
   * the "internal_error"/"high" count is at most each of its two counters.
   */
  lemma SummaryInvariants(items: seq<Obj>, s: SummaryRecord)
    requires s.clusterCount == |items| && s.triagedClusterCount == |items|
    requires s.byLabel == Tally(Labels(items)) && s.byPriority == Tally(Priorities(items))
    requires s.internalHighCount == InternalHighCount(items)
    ensures MapSum(s.byLabel) <= s.clusterCount && MapSum(s.byPriority) <= s.clusterCount
    ensures s.internalHighCount <= Entry(s.byLabel, "internal_error")
    ensures s.internalHighCount <= Entry(s.byPriority, "high")
    ensures s.clusterCount == s.triagedClusterCount
  {
    TallyTotal(Labels(items));
    TallyTotal(Priorities(items));
    CountAtMost(Labels(items), "");
    CountAtMost(Priorities(items), "");
    InternalHighBounded(items);
  }
}
