/**
 * What the cluster refiner guarantees. For the code as written and for the
 * fold with repeated member indices dropped (`dedupe`) alike: the output
 * puts the merged clusters first, numbers its clusters densely and is no
 * longer than the input. With `dedupe` only: every indexed cluster ends up
 * in exactly one output cluster, either folded into a merged cluster or
 * passed through on its own, and counts are conserved. The code as written
 * breaks conservation when a group repeats an index (see `RepeatedIndexDoubleCounts`).
 */
module RefinerProperties {
  import opened JsonValues
  import opened Sequences
  import opened ClusterRefiner

  // ---------------------------------------------------------------------
  // The survivor filter
  // ---------------------------------------------------------------------

  /** With `dedupe`, the survivors of a group are its known, unused members, each once. */
  lemma {:induction false} SurvivorsExact(ms: seq<int>, keys: set<int>, used: set<int>)
    ensures Distinct(Survivors(ms, keys, used, true))
    ensures forall x :: x in Survivors(ms, keys, used, true) <==> x in ms && x in keys && x !in used
    decreases |ms|
  {
    if ms != [] {
      var init := ms[..|ms| - 1];
      var x := ms[|ms| - 1];
      var prev := Survivors(init, keys, used, true);
      SurvivorsExact(init, keys, used);
      assert ms == init + [x];
      if x in keys && x !in used && x !in prev {
        DistinctSnoc(prev, x);
      }
    }
  }

  // ---------------------------------------------------------------------
  // The invariant of the group loop
  // ---------------------------------------------------------------------

  /** `c` has the fields of `base` with their values, except perhaps those named in `fixed`. */
  ghost predicate AgreesExcept(c: Obj, base: Obj, fixed: set<string>) {
    forall k :: k !in fixed ==> (k in c <==> k in base) && (k in c ==> c[k] == base[k])
  }

  /**
   * A merged cluster carries the total count of its members and lists them;
   * every other field is copied from the group's canonical cluster.
   */
  ghost predicate MergedShape(byIdx: map<int, Obj>, c: Obj, can: int, ids: seq<int>)
    requires ids != [] && Known(byIdx, ids)
  {
    && "count" in c && c["count"] == JInt(SumCounts(byIdx, ids))
    && "merged_member_idxs" in c && c["merged_member_idxs"] == JArr(IntsToJson(ids))
    && AgreesExcept(c, Canonical(byIdx, can, ids), {"count", "merged_member_idxs"})
  }

  /** Setting one more field keeps the agreement on the fields not yet set. */
  lemma AgreesAfterSet(c: Obj, base: Obj, fixed: set<string>, key: string, v: Json)
    requires AgreesExcept(c, base, fixed)
    ensures AgreesExcept(c[key := v], base, fixed + {key})
  {
  }

  /**
   * The fields of a merged cluster other than its count and member list come
   * from the cluster at `canonical_idx` when that one is present and not
   * empty, and otherwise from the cluster of the first surviving member.
   */
  lemma MergedFromCanonical(byIdx: map<int, Obj>, can: int, surv: seq<int>)
    requires surv != [] && Known(byIdx, surv)
    ensures can in byIdx && byIdx[can] != map[] ==>
      AgreesExcept(MergedCluster(byIdx, can, surv), byIdx[can], {"count", "merged_member_idxs"})
    ensures !(can in byIdx && byIdx[can] != map[]) ==>
      AgreesExcept(MergedCluster(byIdx, can, surv), byIdx[surv[0]], {"count", "merged_member_idxs"})
  {
    MergedClusterShape(byIdx, can, surv);
  }

  /**
   * The used indices are known and are exactly the members of the merged
   * clusters, each listed once; every merged cluster has members and the
   * shape above.
   */
  ghost predicate Consistent(byIdx: map<int, Obj>, st: MergeState) {
    && st.used <= byIdx.Keys
    && Distinct(Flatten(st.origins))
    && (forall x :: x in Flatten(st.origins) <==> x in st.used)
    && |st.merged| == |st.origins| == |st.canonicals|
    && (forall j :: 0 <= j < |st.origins| ==> st.origins[j] != [] && Known(byIdx, st.origins[j]))
    && (forall j :: 0 <= j < |st.origins| ==> MergedShape(byIdx, st.merged[j], st.canonicals[j], st.origins[j]))
  }

  /** Fresh indices appended to a duplicate-free list of used ones keep it duplicate-free. */
  lemma DistinctAfterUsed(flat: seq<int>, used: set<int>, more: seq<int>)
    requires Distinct(flat) && Distinct(more)
    requires forall x :: x in flat ==> x in used
    requires forall j :: 0 <= j < |more| ==> more[j] !in used
    ensures Distinct(flat + more)
  {
    forall i, j | 0 <= i < |flat| && 0 <= j < |more|
      ensures flat[i] != more[j]
    {
      assert flat[i] in flat;
    }
    DistinctConcat(flat, more);
  }

  lemma MergedClusterShape(byIdx: map<int, Obj>, can: int, surv: seq<int>)
    requires surv != [] && Known(byIdx, surv)
    ensures MergedShape(byIdx, MergedCluster(byIdx, can, surv), can, surv)
  {
    var base := Canonical(byIdx, can, surv);
    AgreesAfterSet(base, base, {}, "count", JInt(SumCounts(byIdx, surv)));
    AgreesAfterSet(base["count" := JInt(SumCounts(byIdx, surv))], base, {"count"}, "merged_member_idxs", JArr(IntsToJson(surv)));
    assert {"count"} + {"merged_member_idxs"} == {"count", "merged_member_idxs"};
  }

  /** Recording a group of fresh, known indices and its merged cluster keeps the invariant. */
  lemma RecordConsistent(byIdx: map<int, Obj>, st: MergeState, surv: seq<int>, can: int, c: Obj)
    requires Consistent(byIdx, st)
    requires surv != [] && Known(byIdx, surv) && Distinct(surv)
    requires forall j :: 0 <= j < |surv| ==> surv[j] !in st.used
    requires MergedShape(byIdx, c, can, surv)
    ensures Consistent(byIdx, MergeState(st.used + SetOf(surv), st.merged + [c], st.origins + [surv], st.canonicals + [can]))
  {
    var st' := MergeState(st.used + SetOf(surv), st.merged + [c], st.origins + [surv], st.canonicals + [can]);
    FlattenSnoc(st.origins, surv);
    DistinctAfterUsed(Flatten(st.origins), st.used, surv);
    assert st'.used <= byIdx.Keys by {
      forall x | x in SetOf(surv)
        ensures x in byIdx
      {
        var j :| 0 <= j < |surv| && surv[j] == x;
      }
    }
    forall j | 0 <= j < |st'.origins|
      ensures st'.origins[j] != [] && Known(byIdx, st'.origins[j])
      ensures MergedShape(byIdx, st'.merged[j], st'.canonicals[j], st'.origins[j])
    {
      if j < |st.origins| {
        assert st'.origins[j] == st.origins[j] && st'.merged[j] == st.merged[j] && st'.canonicals[j] == st.canonicals[j];
      }
    }
  }

  lemma ApplyGroupConsistent(byIdx: map<int, Obj>, st: MergeState, g: Json)
    requires Consistent(byIdx, st)
    ensures Consistent(byIdx, ApplyGroup(byIdx, st, g, true))
  {
    var grp := ParseGroup(g);
    if grp.Some? {
      var surv := Survivors(grp.value.members, byIdx.Keys, st.used, true);
      if surv != [] {
        SurvivorsExact(grp.value.members, byIdx.Keys, st.used);
        SurvivorsIndexed(grp.value.members, byIdx, st.used, true);
        SurvivorsKnown(grp.value.members, byIdx.Keys, st.used, true);
        MergedClusterShape(byIdx, grp.value.canonical, surv);
        RecordConsistent(byIdx, st, surv, grp.value.canonical, MergedCluster(byIdx, grp.value.canonical, surv));
      }
    }
  }

  /** The invariant holds after every prefix of the reply's groups. */
  lemma {:induction false} MergeGroupsConsistent(byIdx: map<int, Obj>, groups: seq<Json>)
    ensures Consistent(byIdx, MergeGroups(byIdx, groups, true))
    decreases |groups|
  {
    if groups != [] {
      MergeGroupsConsistent(byIdx, groups[..|groups| - 1]);
      ApplyGroupConsistent(byIdx, MergeGroups(byIdx, groups[..|groups| - 1], true), groups[|groups| - 1]);
    }
  }

  /**
   * What the group loop keeps whether or not repeated members are dropped:
   * the used indices are known, every merged cluster has members and the
   * merged shape, and each merged cluster consumed at least one fresh index,
   * so there are no more merged clusters than used indices.
   */
  ghost predicate Covering(byIdx: map<int, Obj>, st: MergeState) {
    && st.used <= byIdx.Keys
    && |st.merged| == |st.origins| == |st.canonicals| <= |st.used|
    && (forall j :: 0 <= j < |st.origins| ==> st.origins[j] != [] && Known(byIdx, st.origins[j]))
    && (forall j :: 0 <= j < |st.origins| ==> MergedShape(byIdx, st.merged[j], st.canonicals[j], st.origins[j]))
  }

  /** A set that gains an element it lacked grows. */
  lemma StrictSubsetCard(a: set<int>, b: set<int>, x: int)
    requires a <= b && x in b && x !in a
    ensures |a| < |b|
  {
    assert b == a + (b - a);
    assert a * (b - a) == {};
    assert x in b - a;
  }

  lemma ApplyGroupCovering(byIdx: map<int, Obj>, st: MergeState, g: Json, dedupe: bool)
    requires Covering(byIdx, st)
    ensures Covering(byIdx, ApplyGroup(byIdx, st, g, dedupe))
  {
    var grp := ParseGroup(g);
    if grp.Some? {
      var surv := Survivors(grp.value.members, byIdx.Keys, st.used, dedupe);
      if surv != [] {
        SurvivorsKnown(grp.value.members, byIdx.Keys, st.used, dedupe);
        SurvivorsIndexed(grp.value.members, byIdx, st.used, dedupe);
        MergedClusterShape(byIdx, grp.value.canonical, surv);
        var c := MergedCluster(byIdx, grp.value.canonical, surv);
        assert ApplyGroup(byIdx, st, g, dedupe)
            == MergeState(st.used + SetOf(surv), st.merged + [c], st.origins + [surv], st.canonicals + [grp.value.canonical]);
        CoveringExtend(byIdx, st, surv, grp.value.canonical, c);
      }
    }
  }

  /** Recording a merged cluster over a non-empty group of known, unused indices keeps `Covering`. */
  lemma CoveringExtend(byIdx: map<int, Obj>, st: MergeState, surv: seq<int>, can: int, c: Obj)
    requires Covering(byIdx, st)
    requires surv != [] && Known(byIdx, surv) && surv[0] !in st.used
    requires MergedShape(byIdx, c, can, surv)
    ensures Covering(byIdx, MergeState(st.used + SetOf(surv), st.merged + [c], st.origins + [surv], st.canonicals + [can]))
  {
    var st' := MergeState(st.used + SetOf(surv), st.merged + [c], st.origins + [surv], st.canonicals + [can]);
    assert surv[0] in SetOf(surv);
    StrictSubsetCard(st.used, st'.used, surv[0]);
    assert st'.used <= byIdx.Keys by {
      forall x | x in SetOf(surv)
        ensures x in byIdx
      {
        var j :| 0 <= j < |surv| && surv[j] == x;
      }
    }
    forall j | 0 <= j < |st'.origins|
      ensures st'.origins[j] != [] && Known(byIdx, st'.origins[j])
      ensures MergedShape(byIdx, st'.merged[j], st'.canonicals[j], st'.origins[j])
    {
      if j < |st.origins| {
        assert st'.origins[j] == st.origins[j] && st'.merged[j] == st.merged[j] && st'.canonicals[j] == st.canonicals[j];
      }
    }
  }

  /** Either fold keeps `Covering` over the whole reply. */
  lemma {:induction false} MergeGroupsCovering(byIdx: map<int, Obj>, groups: seq<Json>, dedupe: bool)
    ensures Covering(byIdx, MergeGroups(byIdx, groups, dedupe))
    decreases |groups|
  {
    if groups != [] {
      MergeGroupsCovering(byIdx, groups[..|groups| - 1], dedupe);
      ApplyGroupCovering(byIdx, MergeGroups(byIdx, groups[..|groups| - 1], dedupe), groups[|groups| - 1], dedupe);
    }
  }

  /** A group that the checks skip, or whose members are all used or unknown, changes nothing. */
  lemma SkippedGroupChangesNothing(byIdx: map<int, Obj>, st: MergeState, g: Json, dedupe: bool)
    requires ParseGroup(g).None? || Survivors(ParseGroup(g).value.members, byIdx.Keys, st.used, dedupe) == []
    ensures ApplyGroup(byIdx, st, g, dedupe) == st
  {
  }

  // ---------------------------------------------------------------------
  // The output and the indices behind each output cluster
  // ---------------------------------------------------------------------

  /** The indices behind each output cluster: a merged cluster's members, or the one index passed through. */
  function FinalOrigins(byIdx: map<int, Obj>, st: MergeState): seq<seq<int>> {
    st.origins + Singletons(Remaining(byIdx, st.used))
  }

  function RefinedOrigins(byIdx: map<int, Obj>, groups: seq<Json>, dedupe: bool): seq<seq<int>> {
    FinalOrigins(byIdx, MergeGroups(byIdx, groups, dedupe))
  }

  lemma FinalOriginsCover(byIdx: map<int, Obj>, st: MergeState)
    requires Consistent(byIdx, st)
    ensures Distinct(Flatten(FinalOrigins(byIdx, st)))
    ensures forall x :: x in Flatten(FinalOrigins(byIdx, st)) <==> x in byIdx
  {
    var rem := Remaining(byIdx, st.used);
    var flat := Flatten(st.origins);
    FlattenAppend(st.origins, Singletons(rem));
    FlattenSingletons(rem);
    assert Flatten(FinalOrigins(byIdx, st)) == flat + rem;
    AscendingDistinct(rem);
    DistinctAfterUsed(flat, st.used, rem);
    assert forall x :: x in rem <==> x in byIdx.Keys - st.used;
  }

  lemma AscendingDistinct(s: seq<int>)
    requires StrictlyAscending(s)
    ensures Distinct(s)
  {
    forall p, q | 0 <= p < q < |s|
      ensures s[p] != s[q]
    {
      assert s[p] < s[q];
    }
  }

  /** Every indexed cluster is behind exactly one output cluster. */
  lemma EveryIndexOnce(byIdx: map<int, Obj>, groups: seq<Json>)
    ensures Distinct(Flatten(RefinedOrigins(byIdx, groups, true)))
    ensures forall x :: x in Flatten(RefinedOrigins(byIdx, groups, true)) <==> x in byIdx
  {
    MergeGroupsConsistent(byIdx, groups);
    FinalOriginsCover(byIdx, MergeGroups(byIdx, groups, true));
  }

  /**
   * The merged clusters come first, each numbered by position, with its
   * members' total count and list and the other fields of its group's
   * canonical cluster.
   */
  lemma MergedComeFirst(byIdx: map<int, Obj>, st: MergeState)
    requires Covering(byIdx, st)
    ensures |st.canonicals| == |st.merged|
    ensures forall j :: 0 <= j < |st.merged| ==>
      st.origins[j] != [] && Known(byIdx, st.origins[j]) &&
      "count" in Renumber(st.merged + PassThrough(byIdx, st.used))[j] &&
      Renumber(st.merged + PassThrough(byIdx, st.used))[j]["count"] == JInt(SumCounts(byIdx, st.origins[j])) &&
      "merged_member_idxs" in Renumber(st.merged + PassThrough(byIdx, st.used))[j] &&
      Renumber(st.merged + PassThrough(byIdx, st.used))[j]["merged_member_idxs"] == JArr(IntsToJson(st.origins[j])) &&
      AgreesExcept(Renumber(st.merged + PassThrough(byIdx, st.used))[j],
                   Canonical(byIdx, st.canonicals[j], st.origins[j]), {"count", "merged_member_idxs", "idx"})
  {
    var cs := st.merged + PassThrough(byIdx, st.used);
    forall j | 0 <= j < |st.merged|
      ensures st.origins[j] != [] && Known(byIdx, st.origins[j]) && MergedShape(byIdx, cs[j], st.canonicals[j], st.origins[j])
      ensures AgreesExcept(Renumber(cs)[j], Canonical(byIdx, st.canonicals[j], st.origins[j]), {"count", "merged_member_idxs", "idx"})
    {
      assert cs[j] == st.merged[j];
      RenumberAt(cs, j);
      AgreesAfterSet(cs[j], Canonical(byIdx, st.canonicals[j], st.origins[j]), {"count", "merged_member_idxs"}, "idx", JInt(j));
      assert {"count", "merged_member_idxs"} + {"idx"} == {"count", "merged_member_idxs", "idx"};
    }
  }

  /** The untouched clusters follow, in ascending index order, numbered by position. */
  lemma PassThroughFollows(byIdx: map<int, Obj>, st: MergeState)
    ensures forall t :: 0 <= t < |Remaining(byIdx, st.used)| ==>
      Renumber(st.merged + PassThrough(byIdx, st.used))[|st.merged| + t] ==
      byIdx[Remaining(byIdx, st.used)[t]]["idx" := JInt(|st.merged| + t)]
    ensures StrictlyAscending(Remaining(byIdx, st.used))
  {
    var rem := Remaining(byIdx, st.used);
    var pt := PassThrough(byIdx, st.used);
    var cs := st.merged + pt;
    forall t | 0 <= t < |rem|
      ensures Renumber(cs)[|st.merged| + t] == byIdx[rem[t]]["idx" := JInt(|st.merged| + t)]
    {
      assert cs[|st.merged| + t] == pt[t] == byIdx[rem[t]];
      RenumberAt(cs, |st.merged| + t);
    }
  }

  /** Renumbering only sets the position as `idx`. */
  lemma RenumberAt(cs: seq<Obj>, i: int)
    requires 0 <= i < |cs|
    ensures Renumber(cs)[i] == cs[i]["idx" := JInt(i)]
  {
  }

  /**
   * The output has one cluster per entry of `RefinedOrigins`, each carrying
   * its position as `idx`; the merged ones come first, with their members'
   * total count and list and every other field of the group's canonical
   * cluster (the untouched ones follow, see `PassThroughFollows`).
   */
  lemma RefinedLayout(byIdx: map<int, Obj>, groups: seq<Json>, dedupe: bool)
    ensures |Refined(byIdx, groups, dedupe)| == |RefinedOrigins(byIdx, groups, dedupe)|
    ensures forall j :: 0 <= j < |Refined(byIdx, groups, dedupe)| ==>
      "idx" in Refined(byIdx, groups, dedupe)[j] && Refined(byIdx, groups, dedupe)[j]["idx"] == JInt(j)
    ensures forall j :: 0 <= j < |MergeGroups(byIdx, groups, dedupe).merged| ==>
      Known(byIdx, MergeGroups(byIdx, groups, dedupe).origins[j]) &&
      "count" in Refined(byIdx, groups, dedupe)[j] &&
      Refined(byIdx, groups, dedupe)[j]["count"] == JInt(SumCounts(byIdx, MergeGroups(byIdx, groups, dedupe).origins[j])) &&
      "merged_member_idxs" in Refined(byIdx, groups, dedupe)[j] &&
      Refined(byIdx, groups, dedupe)[j]["merged_member_idxs"] == JArr(IntsToJson(MergeGroups(byIdx, groups, dedupe).origins[j]))
    ensures |MergeGroups(byIdx, groups, dedupe).canonicals| == |MergeGroups(byIdx, groups, dedupe).merged|
    ensures forall j :: 0 <= j < |MergeGroups(byIdx, groups, dedupe).merged| ==>
      MergeGroups(byIdx, groups, dedupe).origins[j] != [] &&
      Known(byIdx, MergeGroups(byIdx, groups, dedupe).origins[j]) &&
      AgreesExcept(Refined(byIdx, groups, dedupe)[j],
                   Canonical(byIdx, MergeGroups(byIdx, groups, dedupe).canonicals[j], MergeGroups(byIdx, groups, dedupe).origins[j]),
                   {"count", "merged_member_idxs", "idx"})
  {
    var st := MergeGroups(byIdx, groups, dedupe);
    MergeGroupsCovering(byIdx, groups, dedupe);
    MergedComeFirst(byIdx, st);
  }

  // ---------------------------------------------------------------------
  // Count conservation
  // ---------------------------------------------------------------------

  /** The sum of the counts of a list of clusters. */
  function CountTotal(cs: seq<Obj>): int
    decreases |cs|
  {
    if cs == [] then 0 else CountTotal(cs[..|cs| - 1]) + CountOf(cs[|cs| - 1])
  }

  lemma {:induction false} SumCountsAppend(byIdx: map<int, Obj>, a: seq<int>, b: seq<int>)
    requires Known(byIdx, a) && Known(byIdx, b)
    ensures Known(byIdx, a + b)
    ensures SumCounts(byIdx, a + b) == SumCounts(byIdx, a) + SumCounts(byIdx, b)
    decreases |b|
  {
    if b == [] {
      assert a + b == a;
    } else {
      var b' := b[..|b| - 1];
      SumCountsAppend(byIdx, a, b');
      assert (a + b)[..|a + b| - 1] == a + b';
      assert (a + b)[|a + b| - 1] == b[|b| - 1];
    }
  }

  /** Taking the k-th index out of a list takes its count out of the total. */
  lemma SumCountsRemove(byIdx: map<int, Obj>, b: seq<int>, k: nat)
    requires k < |b| && Known(byIdx, b)
    ensures Known(byIdx, b[..k] + b[k + 1..])
    ensures SumCounts(byIdx, b) == SumCounts(byIdx, b[..k] + b[k + 1..]) + CountOf(byIdx[b[k]])
  {
    var front, back := b[..k], b[k + 1..];
    assert Known(byIdx, front) by {
      forall i | 0 <= i < |front|
        ensures front[i] in byIdx
      {
        assert front[i] == b[i];
      }
    }
    assert Known(byIdx, back) by {
      forall i | 0 <= i < |back|
        ensures back[i] in byIdx
      {
        assert back[i] == b[k + 1 + i];
      }
    }
    assert Known(byIdx, [b[k]]);
    SumCountsAppend(byIdx, front, back);
    SumCountsAppend(byIdx, [b[k]], back);
    SumCountsAppend(byIdx, front, [b[k]] + back);
    assert b == front + ([b[k]] + back);
    assert [b[k]][..0] == [];
  }

  /** Dropping the last element of a duplicate-free list drops exactly that value. */
  lemma DistinctInit(a: seq<int>)
    requires a != [] && Distinct(a)
    ensures Distinct(a[..|a| - 1])
    ensures forall y :: y in a[..|a| - 1] <==> y in a && y != a[|a| - 1]
  {
    var n := |a|;
    var a' := a[..n - 1];
    forall p, q | 0 <= p < q < |a'|
      ensures a'[p] != a'[q]
    {
      assert a'[p] == a[p] && a'[q] == a[q];
    }
    forall y
      ensures y in a' <==> y in a && y != a[n - 1]
    {
      if y in a' {
        var i :| 0 <= i < |a'| && a'[i] == y;
        assert a[i] == y;
      }
      if y in a && y != a[n - 1] {
        var i :| 0 <= i < |a| && a[i] == y;
        assert a'[i] == y;
      }
    }
  }

  lemma HeadIn(b: seq<int>)
    ensures b != [] ==> b[0] in b
  {
  }

  lemma NotInEmpty(a: seq<int>, x: int)
    ensures a == [] ==> x !in a
  {
  }

  /** Two duplicate-free lists of the same indices have the same count total. */
  lemma {:induction false} SumCountsPermutation(byIdx: map<int, Obj>, a: seq<int>, b: seq<int>)
    requires Known(byIdx, a) && Known(byIdx, b) && Distinct(a) && Distinct(b)
    requires forall x :: x in a <==> x in b
    ensures SumCounts(byIdx, a) == SumCounts(byIdx, b)
    decreases |a|
  {
    if a == [] {
      if b != [] {
        HeadIn(b);
        NotInEmpty(a, b[0]);
        assert false;
      }
    } else {
      var n := |a|;
      var x := a[n - 1];
      assert x in a;
      var k :| 0 <= k < |b| && b[k] == x;
      DistinctRemove(b, k);
      DistinctInit(a);
      SumCountsRemove(byIdx, b, k);
      var a', b' := a[..n - 1], b[..k] + b[k + 1..];
      assert Known(byIdx, a');
      forall y
        ensures y in a' <==> y in b'
      {
        assert y in a' <==> y in a && y != x;
        assert y in b' <==> y in b && y != x;
      }
      SumCountsPermutation(byIdx, a', b');
    }
  }

  /** The count totals of each output cluster's indices, summed. */
  function OriginTotals(byIdx: map<int, Obj>, os: seq<seq<int>>): int
    requires forall j :: 0 <= j < |os| ==> Known(byIdx, os[j])
    decreases |os|
  {
    if os == [] then 0 else OriginTotals(byIdx, os[..|os| - 1]) + SumCounts(byIdx, os[|os| - 1])
  }

  lemma {:induction false} OriginTotalsFlatten(byIdx: map<int, Obj>, os: seq<seq<int>>)
    requires forall j :: 0 <= j < |os| ==> Known(byIdx, os[j])
    ensures Known(byIdx, Flatten(os))
    ensures OriginTotals(byIdx, os) == SumCounts(byIdx, Flatten(os))
    decreases |os|
  {
    if os != [] {
      var init := os[..|os| - 1];
      OriginTotalsFlatten(byIdx, init);
      SumCountsAppend(byIdx, Flatten(init), os[|os| - 1]);
    }
  }

  /** A list of clusters whose counts match the totals of their indices adds up to those totals. */
  lemma {:induction false} CountTotalOrigins(byIdx: map<int, Obj>, cs: seq<Obj>, os: seq<seq<int>>)
    requires |cs| == |os|
    requires forall j :: 0 <= j < |os| ==> Known(byIdx, os[j])
    requires forall j :: 0 <= j < |cs| ==> CountOf(cs[j]) == SumCounts(byIdx, os[j])
    ensures CountTotal(cs) == OriginTotals(byIdx, os)
    decreases |cs|
  {
    if cs != [] {
      CountTotalOrigins(byIdx, cs[..|cs| - 1], os[..|os| - 1]);
    }
  }

  lemma {:induction false} CountTotalRenumber(cs: seq<Obj>)
    ensures CountTotal(Renumber(cs)) == CountTotal(cs)
    decreases |cs|
  {
    if cs != [] {
      var n := |cs|;
      CountTotalRenumber(cs[..n - 1]);
      assert Renumber(cs)[..n - 1] == Renumber(cs[..n - 1]);
      assert Get(Renumber(cs)[n - 1], "count") == Get(cs[n - 1], "count");
    }
  }

  /** A merged cluster's count is the total of its members'. */
  lemma MergedCount(byIdx: map<int, Obj>, st: MergeState, j: nat)
    requires Consistent(byIdx, st) && j < |st.origins|
    ensures Known(byIdx, FinalOrigins(byIdx, st)[j])
    ensures CountOf((st.merged + PassThrough(byIdx, st.used))[j]) == SumCounts(byIdx, FinalOrigins(byIdx, st)[j])
  {
    assert FinalOrigins(byIdx, st)[j] == st.origins[j];
    assert (st.merged + PassThrough(byIdx, st.used))[j] == st.merged[j];
  }

  lemma SumCountsOne(byIdx: map<int, Obj>, x: int)
    requires x in byIdx
    ensures Known(byIdx, [x]) && SumCounts(byIdx, [x]) == CountOf(byIdx[x])
  {
    assert [x][..0] == [];
  }

  /** A passed-through cluster's count is its own. */
  lemma PassedCount(byIdx: map<int, Obj>, st: MergeState, j: nat)
    requires Consistent(byIdx, st) && |st.origins| <= j < |FinalOrigins(byIdx, st)|
    ensures Known(byIdx, FinalOrigins(byIdx, st)[j])
    ensures CountOf((st.merged + PassThrough(byIdx, st.used))[j]) == SumCounts(byIdx, FinalOrigins(byIdx, st)[j])
  {
    var rem := Remaining(byIdx, st.used);
    var t := j - |st.origins|;
    var pass := PassThrough(byIdx, st.used);
    assert FinalOrigins(byIdx, st)[j] == Singletons(rem)[t] == [rem[t]];
    assert (st.merged + pass)[j] == pass[t] == byIdx[rem[t]];
    SumCountsOne(byIdx, rem[t]);
  }

  /** Before renumbering, every output cluster's count is the total of the indices behind it. */
  lemma UnnumberedCounts(byIdx: map<int, Obj>, st: MergeState)
    requires Consistent(byIdx, st)
    ensures forall j :: 0 <= j < |FinalOrigins(byIdx, st)| ==> Known(byIdx, FinalOrigins(byIdx, st)[j])
    ensures |st.merged + PassThrough(byIdx, st.used)| == |FinalOrigins(byIdx, st)|
    ensures forall j :: 0 <= j < |FinalOrigins(byIdx, st)| ==>
      CountOf((st.merged + PassThrough(byIdx, st.used))[j]) == SumCounts(byIdx, FinalOrigins(byIdx, st)[j])
  {
    forall j | 0 <= j < |FinalOrigins(byIdx, st)|
      ensures Known(byIdx, FinalOrigins(byIdx, st)[j])
      ensures CountOf((st.merged + PassThrough(byIdx, st.used))[j]) == SumCounts(byIdx, FinalOrigins(byIdx, st)[j])
    {
      if j < |st.origins| {
        MergedCount(byIdx, st, j);
      } else {
        PassedCount(byIdx, st, j);
      }
    }
  }

  /** The output's count total is the sum, over output clusters, of the totals of the indices behind them. */
  lemma OutputTotal(byIdx: map<int, Obj>, st: MergeState)
    requires Consistent(byIdx, st)
    ensures forall j :: 0 <= j < |FinalOrigins(byIdx, st)| ==> Known(byIdx, FinalOrigins(byIdx, st)[j])
    ensures CountTotal(Renumber(st.merged + PassThrough(byIdx, st.used))) == OriginTotals(byIdx, FinalOrigins(byIdx, st))
  {
    var cs := st.merged + PassThrough(byIdx, st.used);
    UnnumberedCounts(byIdx, st);
    CountTotalRenumber(cs);
    CountTotalOrigins(byIdx, cs, FinalOrigins(byIdx, st));
  }

  /**
   * Count conservation: the output's counts add up to the counts of the
   * indexed clusters, each taken once.
   */
  lemma CountConserved(byIdx: map<int, Obj>, groups: seq<Json>)
    ensures Known(byIdx, SortedInts(byIdx.Keys))
    ensures CountTotal(Refined(byIdx, groups, true)) == SumCounts(byIdx, SortedInts(byIdx.Keys))
  {
    var st := MergeGroups(byIdx, groups, true);
    var os := FinalOrigins(byIdx, st);
    MergeGroupsConsistent(byIdx, groups);
    OutputTotal(byIdx, st);
    OriginTotalsFlatten(byIdx, os);
    FinalOriginsCover(byIdx, st);
    SortedKeysKnown(byIdx);
    SumCountsPermutation(byIdx, Flatten(os), SortedInts(byIdx.Keys));
  }

  /** Every output cluster has at least one index behind it. */
  lemma OriginsNonEmpty(byIdx: map<int, Obj>, st: MergeState)
    requires Consistent(byIdx, st)
    ensures forall j :: 0 <= j < |FinalOrigins(byIdx, st)| ==> FinalOrigins(byIdx, st)[j] != []
  {
    var os := FinalOrigins(byIdx, st);
    forall j | 0 <= j < |os|
      ensures os[j] != []
    {
      if j < |st.origins| {
        assert os[j] == st.origins[j];
      }
    }
  }

  /**
   * The output has no more clusters than there are indexed clusters, whether
   * or not repeated members are dropped: each merged cluster consumes at least
   * one fresh index and every other index passes through on its own.
   */
  lemma RefinedNoLonger(byIdx: map<int, Obj>, groups: seq<Json>, dedupe: bool)
    ensures |Refined(byIdx, groups, dedupe)| <= |byIdx|
  {
    var st := MergeGroups(byIdx, groups, dedupe);
    MergeGroupsCovering(byIdx, groups, dedupe);
    var rest := byIdx.Keys - st.used;
    var rem := Remaining(byIdx, st.used);
    AscendingDistinct(rem);
    DistinctCard(rem);
    assert SetOf(rem) == rest;
    assert byIdx.Keys == st.used + rest;
    assert st.used * rest == {};
  }

  /** A duplicate-free list of exactly the keys of a map is as long as the map. */
  lemma CoverCard(byIdx: map<int, Obj>, xs: seq<int>)
    requires Distinct(xs) && forall x :: x in xs <==> x in byIdx
    ensures |xs| == |byIdx|
  {
    DistinctCard(xs);
    assert SetOf(xs) == byIdx.Keys;
  }

  // ---------------------------------------------------------------------
  // From the clusterer's output
  // ---------------------------------------------------------------------

  /** Clusters straight from the clusterer carry no `idx`. */
  predicate Unnumbered(clusters: seq<Obj>) {
    forall i :: 0 <= i < |clusters| ==> Get(clusters[i], "idx") == JNull
  }

  function Range(n: nat): (r: seq<int>)
    ensures |r| == n && forall i :: 0 <= i < n ==> r[i] == i
  {
    seq(n, i requires 0 <= i < n => i)
  }

  /** Unnumbered clusters are indexed by position, each with its position written in. */
  lemma {:induction false} IndexUnnumbered(clusters: seq<Obj>)
    requires Unnumbered(clusters)
    ensures IndexClusters(clusters).Some?
    ensures forall x :: x in IndexClusters(clusters).value <==> 0 <= x < |clusters|
    ensures forall i :: 0 <= i < |clusters| ==> IndexClusters(clusters).value[i] == clusters[i]["idx" := JInt(i)]
    decreases |clusters|
  {
    if clusters != [] {
      var n := |clusters| - 1;
      assert Unnumbered(clusters[..n]) by {
        assert forall i :: 0 <= i < n ==> clusters[..n][i] == clusters[i];
      }
      IndexUnnumbered(clusters[..n]);
      forall i | 0 <= i < n
        ensures IndexClusters(clusters).value[i] == clusters[i]["idx" := JInt(i)]
      {
        assert clusters[..n][i] == clusters[i];
      }
    }
  }

  lemma {:induction false} CountTotalIndexed(clusters: seq<Obj>, byIdx: map<int, Obj>)
    requires forall i :: 0 <= i < |clusters| ==> i in byIdx && byIdx[i] == clusters[i]["idx" := JInt(i)]
    ensures Known(byIdx, Range(|clusters|))
    ensures SumCounts(byIdx, Range(|clusters|)) == CountTotal(clusters)
    decreases |clusters|
  {
    if clusters != [] {
      var n := |clusters| - 1;
      CountTotalIndexed(clusters[..n], byIdx);
      assert Range(n + 1)[..n] == Range(n);
      assert Get(byIdx[n], "count") == Get(clusters[n], "count");
    }
  }

  /** Indices 0..n-1 listed in order: no repeats, the map's keys exactly, and as many as the map has. */
  lemma RangeKeys(byIdx: map<int, Obj>, n: nat)
    requires forall x :: x in byIdx <==> 0 <= x < n
    ensures Distinct(Range(n)) && |byIdx| == n
    ensures forall x :: x in Range(n) <==> x in byIdx
  {
    var r := Range(n);
    assert Distinct(r);
    forall x
      ensures x in r <==> x in byIdx
    {
      if 0 <= x < n {
        assert r[x] == x;
      }
    }
    assert byIdx.Keys == SetOf(r);
    DistinctCard(r);
  }

  /** The ascending list of a map's keys lists only keys, each once. */
  lemma SortedKeysKnown(byIdx: map<int, Obj>)
    ensures Known(byIdx, SortedInts(byIdx.Keys)) && Distinct(SortedInts(byIdx.Keys))
  {
    var all := SortedInts(byIdx.Keys);
    assert forall i :: 0 <= i < |all| ==> all[i] in all;
    AscendingDistinct(all);
  }

  /** Indexed by position, the clusters' count total is the total over all indices. */
  lemma IndexedTotal(clusters: seq<Obj>, byIdx: map<int, Obj>)
    requires forall x :: x in byIdx <==> 0 <= x < |clusters|
    requires forall i :: 0 <= i < |clusters| ==> byIdx[i] == clusters[i]["idx" := JInt(i)]
    ensures Known(byIdx, SortedInts(byIdx.Keys))
    ensures SumCounts(byIdx, SortedInts(byIdx.Keys)) == CountTotal(clusters)
    ensures |byIdx| == |clusters|
  {
    CountTotalIndexed(clusters, byIdx);
    RangeKeys(byIdx, |clusters|);
    SortedKeysKnown(byIdx);
    SumCountsPermutation(byIdx, SortedInts(byIdx.Keys), Range(|clusters|));
  }

  /**
   * On the clusterer's output, the refiner (with repeated indices dropped)
   * never fails, never adds clusters, and keeps the total event count.
   */
  lemma RefineConserves(clusters: seq<Obj>, reply: Json)
    requires Unnumbered(clusters)
    ensures Refine(clusters, reply, true).Some?
    ensures |Refine(clusters, reply, true).value| <= |clusters|
    ensures CountTotal(Refine(clusters, reply, true).value) == CountTotal(clusters)
  {
    if ReplyGroups(reply).Some? {
      IndexUnnumbered(clusters);
      var byIdx := IndexClusters(clusters).value;
      var groups := ReplyGroups(reply).value;
      CountConserved(byIdx, groups);
      RefinedNoLonger(byIdx, groups, true);
      IndexedTotal(clusters, byIdx);
    }
  }

  // ---------------------------------------------------------------------
  // The code as written: a repeated index is counted twice
  // ---------------------------------------------------------------------

  const OneCluster: seq<Obj> := [map["count" := JInt(5)]]

  /** A reply merging cluster 0 with itself. */
  const SelfMerge: Json :=
    JObj(map["groups" := JArr([JObj(map["canonical_idx" := JInt(0), "member_idxs" := JArr([JInt(0), JInt(0)])])])])

  lemma SelfMergeParses()
    ensures ReplyGroups(SelfMerge) == Some([JObj(map["canonical_idx" := JInt(0), "member_idxs" := JArr([JInt(0), JInt(0)])])])
    ensures ParseGroup(ReplyGroups(SelfMerge).value[0]) == Some(Group(0, [0, 0]))
  {
    var g := ReplyGroups(SelfMerge).value[0];
    var one, two := [JInt(0)], [JInt(0), JInt(0)];
    assert one[..|one| - 1] == [];
    assert IntsOf(one[..|one| - 1]) == Some([]);
    assert ToInt(one[|one| - 1]) == Some(0);
    assert [] + [0] == [0];
    assert IntsOf(one) == Some([0]);
    assert two[..|two| - 1] == one;
    assert ToInt(two[|two| - 1]) == Some(0);
    assert [0] + [0] == [0, 0];
    assert IntsOf(two) == Some([0, 0]);
  }

  lemma OneClusterIndexed()
    ensures IndexClusters(OneCluster) == Some(map[0 := OneCluster[0]["idx" := JInt(0)]])
  {
    assert OneCluster[..0] == [];
  }

  /** Without `dedupe` both copies of index 0 survive, so its count is added twice. */
  lemma BothCopiesSurvive(byIdx: map<int, Obj>)
    requires byIdx.Keys == {0} && Get(byIdx[0], "count") == JInt(5)
    ensures Survivors([0, 0], byIdx.Keys, {}, false) == [0, 0]
    ensures SumCounts(byIdx, [0, 0]) == 10
  {
    assert [0, 0][..1] == [0];
    assert [0][..0] == [];
  }

  /** Applying the self-merge group to the empty state uses index 0 and merges both copies into one cluster. */
  lemma SelfMergeGroup(byIdx: map<int, Obj>, g: Json)
    requires byIdx.Keys == {0} && Get(byIdx[0], "count") == JInt(5)
    requires ParseGroup(g) == Some(Group(0, [0, 0]))
    ensures Known(byIdx, [0, 0])
    ensures ApplyGroup(byIdx, MergeState({}, [], [], []), g, false)
            == MergeState({0}, [MergedCluster(byIdx, 0, [0, 0])], [[0, 0]], [0])
  {
    BothCopiesSurvive(byIdx);
    SelfMergeUses();
    var st := MergeState({}, [], [], []);
    var c := MergedCluster(byIdx, 0, [0, 0]);
    assert ApplyGroup(byIdx, st, g, false) == MergeState(st.used + SetOf([0, 0]), st.merged + [c], st.origins + [[0, 0]], st.canonicals + [0]);
  }

  /** Both copies of index 0 use the one index. */
  lemma SelfMergeUses()
    ensures {} + SetOf([0, 0]) == {0}
  {
  }

  /** The group loop over a reply whose one group merges index 0 with itself: index 0 is used, and one cluster of count 10 is merged. */
  lemma SelfMergeLoop(byIdx: map<int, Obj>, groups: seq<Json>)
    requires byIdx.Keys == {0} && Get(byIdx[0], "count") == JInt(5)
    requires |groups| == 1 && ParseGroup(groups[0]) == Some(Group(0, [0, 0]))
    ensures MergeGroups(byIdx, groups, false).used == {0}
    ensures |MergeGroups(byIdx, groups, false).merged| == 1
    ensures Get(MergeGroups(byIdx, groups, false).merged[0], "count") == JInt(10)
  {
    assert groups[..0] == [];
    assert MergeGroups(byIdx, groups, false) == ApplyGroup(byIdx, MergeState({}, [], [], []), groups[0], false);
    SelfMergeGroup(byIdx, groups[0]);
    BothCopiesSurvive(byIdx);
    MergedClusterShape(byIdx, 0, [0, 0]);
  }

  /** After the self-merge group nothing is passed through, so the output is the one merged cluster of count 10. */
  lemma SelfMergeRefined(byIdx: map<int, Obj>, groups: seq<Json>)
    requires byIdx.Keys == {0} && Get(byIdx[0], "count") == JInt(5)
    requires |groups| == 1 && ParseGroup(groups[0]) == Some(Group(0, [0, 0]))
    ensures CountTotal(Refined(byIdx, groups, false)) == 10
  {
    SelfMergeLoop(byIdx, groups);
    var st := MergeGroups(byIdx, groups, false);
    assert Remaining(byIdx, st.used) == [];
    var out := Refined(byIdx, groups, false);
    assert |out| == 1;
    assert out[..0] == [];
    assert Get(out[0], "count") == JInt(10);
  }

  /** As written, the single cluster of 5 events comes back with a count of 10. */
  lemma RepeatedIndexDoubleCounts()
    ensures Refine(OneCluster, SelfMerge, false).Some?
    ensures CountTotal(Refine(OneCluster, SelfMerge, false).value) == 10
    ensures CountTotal(OneCluster) == 5
  {
    OneClusterIndexed();
    SelfMergeParses();
    SelfMergeRefined(IndexClusters(OneCluster).value, ReplyGroups(SelfMerge).value);
    assert OneCluster[..0] == [];
  }
}
