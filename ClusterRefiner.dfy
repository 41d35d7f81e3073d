/**
 * The cluster refiner (agents/llm_cluster_refiner.py `run`): the clusters are
 * shown to the oracle in a compact form, and its reply names groups of
 * cluster indices to merge. Each group folds its members into a copy of a
 * canonical cluster whose count is the members' total; every index is
 * consumed by at most one group; unreferenced clusters pass through in
 * ascending index order; and the result is renumbered 0..n-1.
 *
 * As written, a group that lists the same index twice keeps both copies
 * (the survivor filter only looks at earlier groups), so that cluster's
 * count is added twice. `dedupe` selects between the code as written
 * (false) and the evidently intended behaviour (true), where a repeated
 * index is dropped like an already used one.
 */
module ClusterRefiner {
  import opened JsonValues
  import opened Sequences

  /** The entry shown to the oracle for the i-th cluster. */
  function CompactEntry(c: Obj, i: nat): Json {
    JObj(map[
      "idx" := JInt(i),
      "service" := Or(Get(c, "service"), Get(c, "athena_service")),
      "java_class" := Get(c, "java_class"),
      "message" := Get(c, "message"),
      "count" := Get(c, "count")])
  }

  function Compact(clusters: seq<Obj>): (r: seq<Json>)
    ensures |r| == |clusters|
  {
    seq(|clusters|, i requires 0 <= i < |clusters| => CompactEntry(clusters[i], i))
  }

  /** `c.get("count") or 0` as it enters `total_count`. */
  function CountOf(c: Obj): int {
    Num(Get(c, "count"))
  }

  /**
   * `cluster_by_idx` after the given clusters: a cluster whose `idx` is None
   * is stored under its position (with that idx written into it), any other
   * under `int(idx)`; a later cluster replaces an earlier one with the same
   * index. None where `int(idx)` raises.
   */
  function IndexClusters(clusters: seq<Obj>): Option<map<int, Obj>>
    decreases |clusters|
  {
    if clusters == [] then Some(map[])
    else
      var i := |clusters| - 1;
      var c := clusters[i];
      match IndexClusters(clusters[..i])
      case None => None
      case Some(m) =>
        if Get(c, "idx") == JNull then Some(m[i := c["idx" := JInt(i)]])
        else
          match ToInt(Get(c, "idx"))
          case None => None
          case Some(n) => Some(m[n := c])
  }

  /** A group of the reply once its indices have been converted with `int()`. */
  datatype Group = Group(canonical: int, members: seq<int>)

  /**
   * What `for x in member_idxs` visits after `or []`: a list's elements, a
   * string's characters; None for values the model does not iterate (a
   * truthy number, which raises TypeError, and a dict).
   */
  function MemberValues(v: Json): Option<seq<Json>> {
    if !Truthy(v) then Some([])
    else
      match v
      case JArr(a) => Some(a)
      case JStr(s) => Some(seq(|s|, i requires 0 <= i < |s| => JStr([s[i]])))
      case _ => None
  }

  /** `[int(x) for x in xs]`, None when some `int(x)` raises. */
  function IntsOf(xs: seq<Json>): (r: Option<seq<int>>)
    ensures r.Some? ==> |r.value| == |xs| && forall i :: 0 <= i < |xs| ==> ToInt(xs[i]) == Some(r.value[i])
    ensures r.None? ==> exists i :: 0 <= i < |xs| && ToInt(xs[i]).None?
    decreases |xs|
  {
    if xs == [] then Some([])
    else
      var last := xs[|xs| - 1];
      match IntsOf(xs[..|xs| - 1])
      case None => None
      case Some(prev) =>
        match ToInt(last)
        case None => None
        case Some(n) => Some(prev + [n])
  }

  /** The checks at the top of the group loop: None means the group is skipped. */
  function ParseGroup(g: Json): (r: Option<Group>)
    ensures !g.JObj? ==> r.None?
    ensures g.JObj? && Get(g.fields, "canonical_idx") == JNull ==> r.None?
    ensures r.Some? ==> ToInt(Get(g.fields, "canonical_idx")) == Some(r.value.canonical)
  {
    if !g.JObj? then None
    else
      var can := Get(g.fields, "canonical_idx");
      if can == JNull then None
      else
        match ToInt(can)
        case None => None
        case Some(ci) =>
          match MemberValues(Or(Get(g.fields, "member_idxs"), JArr([])))
          case None => None
          case Some(vs) =>
            match IntsOf(vs)
            case None => None
            case Some(ms) => Some(Group(ci, ms))
  }

  /**
   * The members of a group that survive: known indices not used by an earlier
   * group (and, when `dedupe`, not already listed earlier in this group).
   */
  function Survivors(ms: seq<int>, keys: set<int>, used: set<int>, dedupe: bool): seq<int>
    decreases |ms|
  {
    if ms == [] then []
    else
      var prev := Survivors(ms[..|ms| - 1], keys, used, dedupe);
      var x := ms[|ms| - 1];
      if x in keys && x !in used && (!dedupe || x !in prev) then prev + [x] else prev
  }

  /** Every listed index is a key of `byIdx`. */
  predicate Known(byIdx: map<int, Obj>, ids: seq<int>) {
    forall i :: 0 <= i < |ids| ==> ids[i] in byIdx
  }

  /** The sum of the counts of the listed clusters. */
  function SumCounts(byIdx: map<int, Obj>, ids: seq<int>): int
    requires Known(byIdx, ids)
    decreases |ids|
  {
    if ids == [] then 0
    else
      SumCounts(byIdx, ids[..|ids| - 1]) + CountOf(byIdx[ids[|ids| - 1]])
  }

  /** The canonical cluster: `cluster_by_idx.get(canonical_idx) or cluster_by_idx[members[0]]`. */
  function Canonical(byIdx: map<int, Obj>, can: int, surv: seq<int>): Obj
    requires surv != [] && surv[0] in byIdx
  {
    if can in byIdx && byIdx[can] != map[] then byIdx[can] else byIdx[surv[0]]
  }

  /** The merged cluster: a copy of the canonical one with the total count and the member list. */
  function MergedCluster(byIdx: map<int, Obj>, can: int, surv: seq<int>): Obj
    requires surv != [] && Known(byIdx, surv)
  {
    Canonical(byIdx, can, surv)
      ["count" := JInt(SumCounts(byIdx, surv))]
      ["merged_member_idxs" := JArr(IntsToJson(surv))]
  }

  /**
   * The state of the group loop: `used_idxs`, `merged_clusters`, and for each
   * merged cluster the members behind it and the group's `canonical_idx`.
   */
  datatype MergeState = MergeState(used: set<int>, merged: seq<Obj>, origins: seq<seq<int>>, canonicals: seq<int>)

  /** Survivors are known indices that no earlier group used. */
  lemma {:induction false} SurvivorsKnown(ms: seq<int>, keys: set<int>, used: set<int>, dedupe: bool)
    ensures forall i :: 0 <= i < |Survivors(ms, keys, used, dedupe)| ==> Survivors(ms, keys, used, dedupe)[i] in keys
    ensures forall i :: 0 <= i < |Survivors(ms, keys, used, dedupe)| ==> Survivors(ms, keys, used, dedupe)[i] !in used
    decreases |ms|
  {
    if ms != [] {
      var prev := Survivors(ms[..|ms| - 1], keys, used, dedupe);
      var surv := Survivors(ms, keys, used, dedupe);
      SurvivorsKnown(ms[..|ms| - 1], keys, used, dedupe);
      var x := ms[|ms| - 1];
      if x in keys && x !in used && (!dedupe || x !in prev) {
        assert surv == prev + [x];
        forall i | 0 <= i < |surv|
          ensures surv[i] in keys && surv[i] !in used
        {
          if i < |prev| {
            assert surv[i] == prev[i];
          } else {
            assert surv[i] == x;
          }
        }
      } else {
        assert surv == prev;
      }
    }
  }

  lemma SurvivorsIndexed(ms: seq<int>, byIdx: map<int, Obj>, used: set<int>, dedupe: bool)
    ensures Known(byIdx, Survivors(ms, byIdx.Keys, used, dedupe))
  {
    SurvivorsKnown(ms, byIdx.Keys, used, dedupe);
  }

  /** One iteration of the group loop. */
  function ApplyGroup(byIdx: map<int, Obj>, st: MergeState, g: Json, dedupe: bool): MergeState {
    match ParseGroup(g)
    case None => st
    case Some(grp) =>
      var surv := Survivors(grp.members, byIdx.Keys, st.used, dedupe);
      if surv == [] then st
      else
        SurvivorsIndexed(grp.members, byIdx, st.used, dedupe);
        MergeState(
          st.used + SetOf(surv),
          st.merged + [MergedCluster(byIdx, grp.canonical, surv)],
          st.origins + [surv],
          st.canonicals + [grp.canonical])
  }

  /** The group loop over the whole reply. */
  function MergeGroups(byIdx: map<int, Obj>, groups: seq<Json>, dedupe: bool): MergeState
    decreases |groups|
  {
    if groups == [] then MergeState({}, [], [], [])
    else ApplyGroup(byIdx, MergeGroups(byIdx, groups[..|groups| - 1], dedupe), groups[|groups| - 1], dedupe)
  }

  /** The indices no group consumed, ascending. */
  function Remaining(byIdx: map<int, Obj>, used: set<int>): (rem: seq<int>)
    ensures forall t :: 0 <= t < |rem| ==> rem[t] in byIdx && rem[t] !in used
  {
    var rem := SortedInts(byIdx.Keys - used);
    assert forall t :: 0 <= t < |rem| ==> rem[t] in rem;
    rem
  }

  function PassThrough(byIdx: map<int, Obj>, used: set<int>): (r: seq<Obj>)
    ensures |r| == |Remaining(byIdx, used)|
  {
    var rem := Remaining(byIdx, used);
    seq(|rem|, t requires 0 <= t < |rem| => byIdx[rem[t]])
  }

  /** The final loop: every cluster's `idx` becomes its position; nothing else changes. */
  function Renumber(cs: seq<Obj>): (r: seq<Obj>)
    ensures |r| == |cs|
    ensures forall i :: 0 <= i < |cs| ==> "idx" in r[i] && r[i]["idx"] == JInt(i)
    ensures forall i, k :: 0 <= i < |cs| && k != "idx" ==> (k in r[i] <==> k in cs[i]) && (k in cs[i] ==> r[i][k] == cs[i][k])
  {
    seq(|cs|, i requires 0 <= i < |cs| => cs[i]["idx" := JInt(i)])
  }

  /** The groups of a reply, when it is a dict whose `groups` is a non-empty list. */
  function ReplyGroups(reply: Json): Option<seq<Json>> {
    if !reply.JObj? then None
    else
      var groups := Get(reply.fields, "groups");
      if groups.JArr? && groups.items != [] then Some(groups.items) else None
  }

  /** What the refiner writes, given the oracle's reply; None where `int(idx)` raises. */
  function Refine(clusters: seq<Obj>, reply: Json, dedupe: bool): Option<seq<Obj>> {
    match ReplyGroups(reply)
    case None => Some(clusters)
    case Some(groups) =>
      match IndexClusters(clusters)
      case None => None
      case Some(byIdx) => Some(Refined(byIdx, groups, dedupe))
  }

  /** The clusters written after the group loop, the pass-through and the renumbering. */
  function Refined(byIdx: map<int, Obj>, groups: seq<Json>, dedupe: bool): seq<Obj> {
    var st := MergeGroups(byIdx, groups, dedupe);
    Renumber(st.merged + PassThrough(byIdx, st.used))
  }

  /** A run of the stage: the payloads sent to the oracle and the clusters written. */
  datatype RefineRun = RefineRun(sent: seq<seq<Json>>, output: Option<seq<Obj>>)

  function RefineStage(clusters: seq<Obj>, ask: Oracle, dedupe: bool): RefineRun {
    if clusters == [] then RefineRun([], Some([]))
    else
      var payload := Compact(clusters);
      RefineRun([payload], Refine(clusters, ask(0, payload), dedupe))
  }

  // ---------------------------------------------------------------------
  // The loops of `run`
  // ---------------------------------------------------------------------

  method BuildIndex(clusters: seq<Obj>) returns (byIdx: Option<map<int, Obj>>)
    ensures byIdx == IndexClusters(clusters)
  {
    var m: map<int, Obj> := map[];
    for i := 0 to |clusters|
      invariant IndexClusters(clusters[..i]) == Some(m)
    {
      assert clusters[..i + 1][..i] == clusters[..i];
      var c := clusters[i];
      var idx := Get(c, "idx");
      if idx == JNull {
        c := c["idx" := JInt(i)];
        m := m[i := c];
      } else {
        var n := ToInt(idx);
        if n.None? {
          IndexFailureSticks(clusters, i + 1);
          assert clusters[..|clusters|] == clusters;
          return None;
        }
        m := m[n.value := c];
      }
    }
    assert clusters[..|clusters|] == clusters;
    byIdx := Some(m);
  }

  /** Once `int(idx)` has raised, the run has failed whatever follows. */
  lemma {:induction false} IndexFailureSticks(clusters: seq<Obj>, i: nat)
    requires i <= |clusters| && IndexClusters(clusters[..i]).None?
    ensures IndexClusters(clusters).None?
    decreases |clusters| - i
  {
    if i < |clusters| {
      assert clusters[..i + 1][..i] == clusters[..i];
      IndexFailureSticks(clusters, i + 1);
    } else {
      assert clusters[..i] == clusters;
    }
  }

  method GroupSurvivors(ms: seq<int>, byIdx: map<int, Obj>, used: set<int>, dedupe: bool) returns (surv: seq<int>)
    ensures surv == Survivors(ms, byIdx.Keys, used, dedupe)
  {
    surv := [];
    for j := 0 to |ms|
      invariant surv == Survivors(ms[..j], byIdx.Keys, used, dedupe)
    {
      assert ms[..j + 1][..j] == ms[..j];
      var x := ms[j];
      if x in byIdx && x !in used && (!dedupe || x !in surv) {
        surv := surv + [x];
      }
    }
    assert ms[..|ms|] == ms;
  }

  method TotalCount(byIdx: map<int, Obj>, surv: seq<int>) returns (total: int)
    requires Known(byIdx, surv)
    ensures total == SumCounts(byIdx, surv)
  {
    total := 0;
    for j := 0 to |surv|
      invariant Known(byIdx, surv[..j])
      invariant total == SumCounts(byIdx, surv[..j])
    {
      assert surv[..j + 1][..j] == surv[..j];
      total := total + CountOf(byIdx[surv[j]]);
    }
    assert surv[..|surv|] == surv;
  }

  method MergeLoop(byIdx: map<int, Obj>, groups: seq<Json>, dedupe: bool) returns (st: MergeState)
    ensures st == MergeGroups(byIdx, groups, dedupe)
  {
    st := MergeState({}, [], [], []);
    for i := 0 to |groups|
      invariant st == MergeGroups(byIdx, groups[..i], dedupe)
    {
      assert groups[..i + 1][..i] == groups[..i];
      var g := groups[i];
      var grp := ParseGroup(g);
      if grp.Some? {
        var surv := GroupSurvivors(grp.value.members, byIdx, st.used, dedupe);
        if surv != [] {
          SurvivorsIndexed(grp.value.members, byIdx, st.used, dedupe);
          var canonical := Canonical(byIdx, grp.value.canonical, surv);
          var total := TotalCount(byIdx, surv);
          var merged := canonical["count" := JInt(total)]["merged_member_idxs" := JArr(IntsToJson(surv))];
          st := MergeState(st.used + SetOf(surv), st.merged + [merged], st.origins + [surv], st.canonicals + [grp.value.canonical]);
        }
      }
    }
    assert groups[..|groups|] == groups;
  }

  method BuildCompact(clusters: seq<Obj>) returns (compact: seq<Json>)
    ensures compact == Compact(clusters)
  {
    compact := [];
    for i := 0 to |clusters|
      invariant compact == Compact(clusters[..i])
    {
      compact := compact + [CompactEntry(clusters[i], i)];
    }
    assert clusters[..|clusters|] == clusters;
  }

  method AppendRemaining(byIdx: map<int, Obj>, used: set<int>, merged: seq<Obj>) returns (out: seq<Obj>)
    ensures out == merged + PassThrough(byIdx, used)
  {
    var rem := Remaining(byIdx, used);
    ghost var pass := PassThrough(byIdx, used);
    out := merged;
    for t := 0 to |rem|
      invariant out == merged + pass[..t]
    {
      assert pass[..t + 1] == pass[..t] + [byIdx[rem[t]]];
      out := out + [byIdx[rem[t]]];
    }
    assert pass[..|rem|] == pass;
  }

  method RenumberLoop(cs: seq<Obj>) returns (r: seq<Obj>)
    ensures r == Renumber(cs)
  {
    r := [];
    for i := 0 to |cs|
      invariant r == Renumber(cs)[..i]
    {
      assert Renumber(cs)[..i + 1] == r + [cs[i]["idx" := JInt(i)]];
      r := r + [cs[i]["idx" := JInt(i)]];
    }
    assert Renumber(cs)[..|cs|] == Renumber(cs);
  }

  /** `run` of agents/llm_cluster_refiner.py, with the loaded clusters and the oracle as parameters. */
  method RunRefiner(clusters: seq<Obj>, ask: Oracle, dedupe: bool) returns (run: RefineRun)
    ensures run == RefineStage(clusters, ask, dedupe)
    ensures clusters == [] ==> run.sent == [] && run.output == Some([])
    ensures clusters != [] ==> run.sent == [Compact(clusters)]
    ensures ReplyGroups(ask(0, Compact(clusters))).None? ==> run.output == Some(clusters)
  {
    if clusters == [] {
      return RefineRun([], Some([]));
    }
    var compact := BuildCompact(clusters);
    var reply := ask(0, compact);
    var groups := ReplyGroups(reply);
    if groups.None? {
      return RefineRun([compact], Some(clusters));
    }
    var byIdx := BuildIndex(clusters);
    if byIdx.None? {
      return RefineRun([compact], None);
    }
    var st := MergeLoop(byIdx.value, groups.value, dedupe);
    var out := AppendRemaining(byIdx.value, st.used, st.merged);
    var renumbered := RenumberLoop(out);
    run := RefineRun([compact], Some(renumbered));
  }
}
