# ALOE log-review pipeline: a Dafny model of its deterministic core

ALOE reviews the error logs of an enterprise Java backend in stages:

1. The **log preprocessor** normalises raw Elasticsearch records and clusters them by (Java class, message).
2. The **cluster refiner** merges clusters that a language model groups together.
3. The **triage** stage attaches a language-model classification and a fingerprint (signature) to every cluster.
4. The **Jira** stage drafts tickets for the selected clusters.
5. The **filter** stage proposes Elasticsearch clauses that suppress noise.

A **summary** of the triage feeds a **planner**. The planner is either the static baseline plan or the normalised language-model plan. An **executor** then dispatches the planned agents. Two interactive **reviews** append the operator's decisions to a **feedback ledger**. The module that loads logs from Elasticsearch forces a **last-24-hours range** into every query. A small record keeps **language-model usage counters**.

This project models each of those stages in Dafny and proves what the code promises about them. The language model's reply is always a parameter: a function from (call number, payload sent) to a JSON value, which may be any value, including a non-dict or an `{"_error": ...}` dict. SHA-1 is also a parameter: a function returning 40 hexadecimal characters. The operator's answers are a scripted sequence of lines, and the clock is a function.

## Modules

Stateful parts of the source are modelled as stateful Dafny code:

- Loops are methods with invariants, each proved equal to a specification function.
- The ledger and the usage record are classes.
- The query rewrite works on an explicit heap, so that its in-place mutation of the caller's nested query is visible.

The modules:

- `JsonValues`: JSON values, Python truthiness, `or`, `.get`, `int()`, `strip`, `lower`.
- `Sequences`: flattening, `_chunked`, sorting a set of ints, counting.
- `StringOrder`: Python string comparison.
- `LogPreprocessor`, `ClusterProperties`: `_normalize`, `_cluster` and `run` of the preprocessor.
- `ClusterRefiner`, `RefinerProperties`: the refiner's `run`.
- `LogText`: `make_cluster_signature` and the stack excerpt.
- `Triage`, `TriageProperties`: the triage `run`.
- `JiraDrafts`, `JiraProperties`: the Jira drafts `run`.
- `FilterSuggestions`, `FilterProperties`: the filter `run`.
- `Summary`: `build_summary` and `_load_raw_logs_count`.
- `Planning`: `build_baseline_plan` and the post-reply part of `plan_actions`.
- `Dispatch`: `execute_actions` of both executors and the branch structure of `run_full_pipeline`.
- `Feedback`: the ledger.
- `FeedbackReview`, `FeedbackReviewProperties`: the two review loops.
- `QueryRange`, `QueryRangeProperties`: `_ensure_last_24h_range`.
- `Metrics`: `LlmUsage`.

The `tools/` and `agents/` directories hold two copies of the preprocessor, the summary and the executor. Where the two copies compute the same thing, they are modelled once and the table cites one of them. Where they differ, the executors and the reviews, each copy is modelled.

An unclassified cluster's triage is not left `{}`: the code fills in `triage["service"]` (agents/llm_triage.py:185-186), so the written triage is `{"service": <cluster service>}`. See `TriageProperties.UnmatchedGetsService`.

## Model

| member | source | states |
|---|---|---|
| JsonValues.TrimStartSpec | tools/log_preprocessor.py:28 | `strip()` removes only leading whitespace and leaves none at the front |
| JsonValues.TrimEndSpec | tools/log_preprocessor.py:28 | `strip()` removes only trailing whitespace and leaves none at the end |
| JsonValues.LowerAt | tools/feedback_review.py:60 | `lower()` maps every character on its own and keeps the length |
| LogPreprocessor.Normalize | tools/log_preprocessor.py:14-23 | the record is kept as `raw`; each field is truthy iff one of its two source keys is, and it comes from the first key whenever that key is truthy (`@timestamp` before `timestamp`, and so on); `java_class` is `athena_java_class` alone |
| LogPreprocessor.SortByTime | tools/log_preprocessor.py:33 | the time sort returns a permutation of the group |
| LogPreprocessor.SortByCount | tools/log_preprocessor.py:41 | the count sort returns a permutation of the clusters it is given (same length, same multiset) |
| LogPreprocessor.MakeCluster | tools/log_preprocessor.py:34-40 | a cluster carries its group's key, and `count == len(timestamps)` == the group size |
| LogPreprocessor.FirstSeenKeysDistinct | tools/log_preprocessor.py:26-29 | the defaultdict's key order lists every key once |
| LogPreprocessor.KeysSeen | tools/log_preprocessor.py:26-29 | a key is in the group order iff some event has it, and its group is non-empty iff so |
| LogPreprocessor.GroupStep | tools/log_preprocessor.py:27-29 | one grouping step keeps the invariant: first-seen key order, and per key exactly that key's events in input order |
| LogPreprocessor.GroupEvents | tools/log_preprocessor.py:26-29 | the grouping loop ends with the first-seen key order and each key's events in input order |
| LogPreprocessor.BuildStep | tools/log_preprocessor.py:32-40 | one step of the cluster-building loop appends the cluster of the next key |
| LogPreprocessor.ClusterEvents | tools/log_preprocessor.py:25-42 | the imperative `_cluster` returns exactly `Clusters(logs)`, whose properties are proved in ClusterProperties |
| LogPreprocessor.Preprocess | tools/log_preprocessor.py:44-64 | `norm` is the element-wise `_normalize` of the loaded logs; the new context has `raw_logs` and `clusters` set to them and keeps every other key; the raw-logs file holds `count` and `items`, and the clusters file holds `cluster_count`, `log_count` and `clusters` |
| ClusterProperties.ClusterCountsSum | tools/log_preprocessor.py:26-41 | the cluster counts add up to the number of input events |
| ClusterProperties.EveryEventClustered | tools/log_preprocessor.py:26-32 | every event's key is the key of some output cluster, and no two output clusters share a key |
| ClusterProperties.ClusterIsGroup | tools/log_preprocessor.py:32-40 | every output cluster is the cluster of exactly its key's group, with count = group size > 0 |
| ClusterProperties.ClusterKeysDistinct | agents/log_preprocessor.py:33-39 | output clusters have pairwise distinct (class, message) keys |
| ClusterProperties.ClustersOrdered | tools/log_preprocessor.py:41 | clusters are in descending count, and equal counts keep first-seen key order (stable sort) |
| ClusterProperties.SampleIsEarliest | tools/log_preprocessor.py:33-38 | `sample` is the member with the smallest timestamp key (`timestamp or ""`), the first such member in input order |
| ClusterProperties.TimestampsAscending | tools/log_preprocessor.py:39 | `timestamps` has `count` entries in nondecreasing key order |
| ClusterProperties.SortByTimeSorted | agents/log_preprocessor.py:40 | the stable time sort yields a nondecreasing sequence |
| ClusterProperties.SortByTimeHead | agents/log_preprocessor.py:40-45 | the head of the time sort is the earliest member, the first among equal keys |
| ClusterProperties.InsertByTimeSorted | agents/log_preprocessor.py:40 | inserting into a sorted sequence keeps it sorted |
| ClusterProperties.InsertByCountOrdered | agents/log_preprocessor.py:48 | inserting a later-seen cluster keeps descending count with first-seen ties |
| ClusterProperties.SortByCountOrdered | agents/log_preprocessor.py:48 | the stable descending sort of a first-seen-ordered list orders by count, then first-seen |
| ClusterProperties.SortByCountKeysDistinct | tools/log_preprocessor.py:41 | the count sort keeps keys distinct |
| ClusterProperties.SortByCountSum | tools/log_preprocessor.py:41 | the count sort keeps the count total |
| ClusterProperties.SumMembersOfAllKeys | tools/log_preprocessor.py:26-29 | the groups' sizes add up to the number of events: the grouping is a partition |
| ClusterProperties.SumCountsInKeyOrder | tools/log_preprocessor.py:32-40 | the clusters built in key order count exactly the members of their keys |
| ClusterProperties.IndexOf | tools/log_preprocessor.py:26 | the position of a key in the first-seen order is its first occurrence |
| StringOrder.LexLeTotal | tools/log_preprocessor.py:33 | Python's `<=` on strings compares any two strings |
| StringOrder.LexLeTransitive | tools/log_preprocessor.py:33 | Python's `<=` on strings is transitive |
| StringOrder.LexLeAntisymmetric | tools/log_preprocessor.py:33 | Python's `<=` on strings is antisymmetric |
| StringOrder.LexLeReflexive | tools/log_preprocessor.py:33 | Python's `<=` on strings is reflexive |
| Sequences.ChunksPartition | agents/llm_triage.py:81-83 | `_chunked` yields non-empty slices of at most `size` whose concatenation is the input |
| Sequences.ChunksCount | agents/llm_triage.py:81-83 | `_chunked` yields ceil(len / size) slices |
| Sequences.SortedInts | agents/llm_cluster_refiner.py:156 | `sorted(remaining)` is strictly ascending and holds exactly the set's elements |
| Sequences.MinOf | agents/llm_cluster_refiner.py:156 | a non-empty set of ints has a least element |
| Sequences.DistinctCard | agents/llm_cluster_refiner.py:154 | a repetition-free list has as many elements as its set |
| Sequences.FlattenAppend | agents/llm_cluster_refiner.py:152-157 | concatenating the merged and the passed-through groups concatenates their members |
| ClusterRefiner.Compact | agents/llm_cluster_refiner.py:71-82 | the compact view has one entry per cluster |
| ClusterRefiner.IntsOf | agents/llm_cluster_refiner.py:129-133 | `[int(x) for x in member_idxs]` succeeds iff every element converts, and then converts element-wise |
| ClusterRefiner.ParseGroup | agents/llm_cluster_refiner.py:119-133 | a non-dict group or a missing `canonical_idx` is skipped; a kept group's canonical index is `int(canonical_idx)` |
| ClusterRefiner.SurvivorsKnown | agents/llm_cluster_refiner.py:135 | surviving members are known indices not used before |
| ClusterRefiner.Remaining | agents/llm_cluster_refiner.py:154-156 | remaining indices are known and unused |
| ClusterRefiner.Renumber | agents/llm_cluster_refiner.py:159-160 | cluster j gets `idx = j`, and every other key is unchanged |
| ClusterRefiner.BuildIndex | agents/llm_cluster_refiner.py:108-114 | the indexing loop computes `IndexClusters` (None where `int(idx)` raises) |
| ClusterRefiner.IndexFailureSticks | agents/llm_cluster_refiner.py:114 | once `int(idx)` fails, indexing fails |
| ClusterRefiner.GroupSurvivors | agents/llm_cluster_refiner.py:135 | the filter loop computes the survivors |
| ClusterRefiner.TotalCount | agents/llm_cluster_refiner.py:143-146 | the accumulation loop sums the members' counts (missing as 0) |
| ClusterRefiner.MergeLoop | agents/llm_cluster_refiner.py:119-152 | the group loop computes the fold `MergeGroups` |
| ClusterRefiner.BuildCompact | agents/llm_cluster_refiner.py:71-82 | the loop builds the compact view |
| ClusterRefiner.AppendRemaining | agents/llm_cluster_refiner.py:154-157 | pass-through clusters are appended after the merged ones |
| ClusterRefiner.RenumberLoop | agents/llm_cluster_refiner.py:159-160 | the renumbering loop computes `Renumber` |
| ClusterRefiner.RunRefiner | agents/llm_cluster_refiner.py:61-168 | empty input gives `[]` and no language-model call; otherwise the compact view is sent once, and a non-dict reply or a `groups` that is not a non-empty list returns the clusters unchanged |
| RefinerProperties.SurvivorsExact | agents/llm_cluster_refiner.py:135-139 | (corrected) survivors are repetition-free and are exactly the members that are known and not yet used |
| RefinerProperties.MergedClusterShape | agents/llm_cluster_refiner.py:141-150 | a merged cluster's count is the sum of its survivors' counts, its `merged_member_idxs` lists exactly them, and every other field is the canonical cluster's |
| RefinerProperties.MergedFromCanonical | agents/llm_cluster_refiner.py:141-150 | a merged cluster's fields other than `count` and `merged_member_idxs` are those of the cluster at `canonical_idx` when that is present and non-empty, and otherwise those of the first surviving member's cluster |
| RefinerProperties.ApplyGroupConsistent | agents/llm_cluster_refiner.py:119-152 | (corrected) one group keeps the merge invariant: used = the members of merged clusters, each once |
| RefinerProperties.MergeGroupsConsistent | agents/llm_cluster_refiner.py:119-152 | (corrected) the whole group loop keeps the merge invariant |
| RefinerProperties.ApplyGroupCovering | agents/llm_cluster_refiner.py:119-152 | for either fold, as written or corrected: one group keeps the used indices known, gives every merged cluster members, the summed count and the member list, and consumes at least one fresh index |
| RefinerProperties.MergeGroupsCovering | agents/llm_cluster_refiner.py:119-152 | for either fold: the whole group loop keeps that invariant, so there are no more merged clusters than used indices |
| RefinerProperties.SkippedGroupChangesNothing | agents/llm_cluster_refiner.py:119-137 | a malformed group, or one with no surviving member, changes nothing |
| RefinerProperties.FinalOriginsCover | agents/llm_cluster_refiner.py:135-157 | merged members plus pass-throughs cover every known index exactly once |
| RefinerProperties.EveryIndexOnce | agents/llm_cluster_refiner.py:135-157 | (corrected) every original index appears exactly once: in one `merged_member_idxs` or as a pass-through |
| RefinerProperties.MergedComeFirst | agents/llm_cluster_refiner.py:141-160 | the first output clusters are the merged ones, with their summed counts and member lists and every other field (but `idx`) from their group's canonical cluster |
| RefinerProperties.PassThroughFollows | agents/llm_cluster_refiner.py:154-160 | pass-throughs follow in ascending original index, renumbered and otherwise unchanged |
| RefinerProperties.RefinedLayout | agents/llm_cluster_refiner.py:141-160 | for either fold: one output cluster per merged group or pass-through, dense `idx` 0..n-1, and the merged clusters first with their summed counts and member lists, every other field copied from the canonical cluster recorded for that group |
| RefinerProperties.SumCountsPermutation | agents/llm_cluster_refiner.py:143-146 | the count total of a set of indices does not depend on their order |
| RefinerProperties.CountConserved | agents/llm_cluster_refiner.py:135-157 | (corrected) the refined clusters' count total equals the total over all indexed clusters |
| RefinerProperties.RefinedNoLonger | agents/llm_cluster_refiner.py:135-157 | for either fold: the output is no longer than the indexed input, since each merged cluster consumes a fresh index |
| RefinerProperties.IndexUnnumbered | agents/llm_cluster_refiner.py:108-114 | clusters without `idx` (as the clusterer writes them) are indexed 0..n-1 with `idx` set |
| RefinerProperties.IndexedTotal | agents/llm_cluster_refiner.py:108-114 | indexing keeps the count total |
| RefinerProperties.RefineConserves | agents/llm_cluster_refiner.py:108-160 | (corrected) for any reply, refining the clusterer's output never fails, is no longer than the input, and conserves the count total |
| RefinerProperties.RepeatedIndexDoubleCounts | agents/llm_cluster_refiner.py:135 | (as written) one cluster of count 5 and the group `{canonical_idx: 0, member_idxs: [0, 0]}` give a total of 10 |
| RefinerProperties.SelfMergeRefined | agents/llm_cluster_refiner.py:135-152 | (as written) a repeated member index is summed twice |
| LogText.MaskNoDigits | agents/llm_triage.py:76 | the masked string contains no digit |
| LogText.MaskOfRun | agents/llm_triage.py:76 | a maximal digit run becomes a single `#` |
| LogText.MaskAppend | agents/llm_triage.py:76 | masking a concatenation masks the parts, carrying whether a run is open |
| LogText.MaskKeepsDigitFree | agents/llm_triage.py:76 | a digit-free string is unchanged |
| LogText.MaskIdempotent | agents/llm_triage.py:76 | masking twice is masking once |
| LogText.DigitRunsIgnored | agents/llm_triage.py:76 | strings that differ only in one maximal digit run mask alike |
| LogText.Signature | agents/llm_triage.py:74-78 | the signature is exactly 12 hexadecimal characters |
| LogText.SignatureOfMasked | agents/llm_triage.py:76-77 | the signature is a 12-character prefix of the SHA-1 of a digit-free string |
| LogText.SignatureIgnoresDigitRuns | agents/llm_triage.py:75-77 | messages that differ only in a digit run get the same signature |
| LogText.LineEndSpec | agents/llm_triage.py:178 | the line end is the first line-break character |
| LogText.LinesHaveNoBreaks | agents/llm_triage.py:178 | `splitlines()` yields lines that contain no line break |
| LogText.FirstLinesArePrefix | agents/llm_triage.py:178-179 | for a log whose only breaks are `\n`, its first n lines rejoined are a prefix of it |
| LogText.ShortLogKept | agents/llm_triage.py:178-179 | for such a log, rejoining all lines gives it back, up to a final newline |
| LogText.JoinNewlines | agents/llm_triage.py:179 | joining k break-free lines puts k-1 newlines in |
| LogText.ExcerptNewlines | agents/llm_triage.py:178-179 | the stack excerpt has at most 15 lines (fewer than 15 newlines) |
| LogText.ExcerptOfPlainLog | agents/llm_triage.py:177-179 | for a `\n`-only log, the excerpt is a prefix of it, and a log of at most 15 lines is kept whole up to a final newline |
| Triage.TriageOf | agents/llm_triage.py:147-156 | the filed triage is never empty: a missing or empty `triage` is rebuilt from the flat fields |
| Triage.FilingOf | agents/llm_triage.py:140-145 | only dict items are filed |
| Triage.BuildCompactClusters | agents/llm_triage.py:100-125 | the loop builds the compact view |
| Triage.FileReply | agents/llm_triage.py:139-158 | the item loop computes `FileItems` (None where `int(idx)` raises) |
| Triage.FilingFailSticks | agents/llm_triage.py:158 | once `int(idx)` fails, the stage fails |
| Triage.CollectTriage | agents/llm_triage.py:127-158 | the batch loop files every item of every reply into `triage_by_idx`, and stops after the first reply holding an item whose idx `int()` rejects, reporting how many batches were sent |
| Triage.AssembleResults | agents/llm_triage.py:160-199 | the result loop computes `Assemble` |
| Triage.AssembleFailSticks | agents/llm_triage.py:167 | once `int(idx)` fails on a cluster, the stage fails |
| Triage.WriteOut | agents/llm_triage.py:201-205 | the written items read the final triage dicts |
| Triage.RunTriage | agents/llm_triage.py:86-207 | `run` computes `TriageStage`: no clusters means no language-model call and `items == []`, and a failing `int(idx)` in a reply stops the sending there |
| TriageProperties.FileItemsFailsIff | agents/llm_triage.py:139-158 | filing fails iff some dict item has an `idx` that `int()` rejects |
| TriageProperties.FileItemsKeys | agents/llm_triage.py:139-158 | `triage_by_idx` has exactly the earlier keys plus the idx of every dict item with a non-None idx; other keys keep their values |
| TriageProperties.FileItemsLastWins | agents/llm_triage.py:158 | a later item with the same idx overrides an earlier one |
| TriageProperties.SkippedItem | agents/llm_triage.py:141-145 | a non-dict item or one without `idx` changes nothing |
| TriageProperties.AssembleFailsIff | agents/llm_triage.py:162-167 | assembling fails iff some cluster's idx (defaulting to its position) is rejected by `int()` |
| TriageProperties.AssembleKeepsShape | agents/llm_triage.py:162-199 | each result carries the cluster's idx (or its position), signature, service, class, message, count and stack excerpt |
| TriageProperties.WrittenShape | agents/llm_triage.py:188-205 | the written list has one result per cluster, in cluster order, with those fields |
| TriageProperties.AssembleKeepsTable | agents/llm_triage.py:167-186 | each result's triage is the dict filed under its idx (or a fresh one), and only its `service` may change |
| TriageProperties.UnmatchedGetsService | agents/llm_triage.py:167-186 | an unclassified cluster's triage is `{"service": <cluster service>}` |
| TriageProperties.ClassifiedKeepsOwnService | agents/llm_triage.py:185-186 | a triage with a non-None `service` is written as filed |
| TriageProperties.SharedClassification | agents/llm_triage.py:167-186 | two clusters sharing an idx share one triage dict, so both write the same triage |
| TriageProperties.JoinedPrefix | agents/llm_triage.py:162-186 | for clusters numbered 0..n-1, assembling a prefix succeeds and joins each cluster with `triage_by_idx[i]` |
| TriageProperties.NumberedJoin | agents/llm_triage.py:162-199 | for refined clusters (idx = position) the stage succeeds and result i carries the triage filed under i, with the service filled in |
| TriageProperties.EmptyInputAsksNothing | agents/llm_triage.py:92-98 | no clusters: no call, and an empty item list |
| TriageProperties.BatchesPartition | agents/llm_triage.py:129 | batches are non-empty, at most 10 long, and concatenate to the compact view |
| TriageProperties.TriageSucceedsIff | agents/llm_triage.py:127-167 | the stage succeeds iff no item and no cluster has an idx `int()` rejects, and then every batch was sent |
| TriageProperties.TriageSent | agents/llm_triage.py:129-158 | the batches sent are a prefix of the batches: all of them when no reply item fails `int(idx)`, otherwise exactly up to and including the first batch whose reply holds such an item |
| TriageProperties.SentCountFails | agents/llm_triage.py:129-158 | when filing fails, the last reply asked for is the first failing one, and every earlier reply filed |
| TriageProperties.TriageResults | agents/llm_triage.py:160-199 | a successful stage writes one result per cluster with the cluster's fields |
| TriageProperties.TriageJoin | agents/llm_triage.py:139-199 | for refined clusters, result i's triage is the last triage the language model returned for idx i, with the service filled in |
| JiraDrafts.AllNotSelected | agents/llm_jira.py:96-99 | with nothing selected, every item is listed as "not selected" |
| JiraDrafts.SkipBatch | agents/llm_jira.py:132-140 | the loop appends one skip entry per batch item |
| JiraDrafts.AcceptItems | agents/llm_jira.py:168-174 | the item loop computes `Accept` |
| JiraDrafts.ProcessBatch | agents/llm_jira.py:129-174 | one batch's validation computes `BatchOutcome` |
| JiraDrafts.JoinDrafts | agents/llm_jira.py:176-199 | the join loop yields the drafts and appends the unanswered items to `skipped` |
| JiraDrafts.RunJira | agents/llm_jira.py:67-218 | `run` computes `JiraStage` |
| JiraProperties.PipelineSelectsAll | agents/llm_jira.py:70-72 | pipeline mode selects every item and pre-skips none |
| JiraProperties.ChosenPartition | agents/llm_jira.py:73-84 | in other modes an item is selected iff its idx is in `cluster_indices`; every other item is skipped as "not selected" |
| JiraProperties.NoIndicesSelectsNothing | agents/llm_jira.py:74 | a None index list selects nothing |
| JiraProperties.EmptySelectionAsksNothing | agents/llm_jira.py:88-106 | nothing selected: no call, count 0, no drafts, every item skipped |
| JiraProperties.BatchesPartition | agents/llm_jira.py:110 | batches are non-empty, at most 10 long, and concatenate to the selection |
| JiraProperties.AcceptKeys | agents/llm_jira.py:168-174 | `jira_by_idx` gains exactly the idx of every dict item with a non-None idx |
| JiraProperties.AcceptLastWins | agents/llm_jira.py:174 | a later item with the same idx overrides an earlier one |
| JiraProperties.BatchKeys | agents/llm_jira.py:129-174 | a batch adds exactly the keys its reply carries, and only appends to `skipped` |
| JiraProperties.CollectKeys | agents/llm_jira.py:110-174 | after all batches, `jira_by_idx` holds exactly the keys some batch carried |
| JiraProperties.SingleItemFallback | agents/llm_jira.py:143-145 | a one-item batch without `items` uses the whole reply as that item's draft |
| JiraProperties.FailedBatchSkipsAll | agents/llm_jira.py:131-166 | a non-dict reply, a missing `items` with several items, or a non-list `items` skips every item of the batch |
| JiraProperties.JoinPartition | agents/llm_jira.py:176-199 | every selected item becomes a draft iff its idx has a Jira entry, and is otherwise skipped with "no Jira draft returned" |
| JiraProperties.FiledIff | agents/llm_jira.py:110-178 | an item's idx is in `jira_by_idx` iff some batch's reply answered it |
| JiraProperties.DraftedIfAnswered | agents/llm_jira.py:176-199 | an answered selected item gets a draft |
| JiraProperties.SkippedIfUnanswered | agents/llm_jira.py:176-188 | an unanswered selected item is skipped and gets no draft |
| JiraProperties.CountBound | agents/llm_jira.py:205-218 | the count is the number of drafts and at most the number of selected items |
| JiraProperties.AcceptFiles | agents/llm_jira.py:168-174 | accepting a reply's items stores, in order, the pairs of the dict items with a non-None idx |
| JiraProperties.CollectFiles | agents/llm_jira.py:110-174 | the batch loop stores the pairs of all replies in order: the whole reply of a one-item batch without `items`, the accepted items of a list, nothing for a failed batch |
| JiraProperties.FileKeys | agents/llm_jira.py:145-174 | an idx is stored iff it was before or some pair carries it |
| JiraProperties.FileLastWins | agents/llm_jira.py:145-174 | the draft kept for an idx is the one of the last pair carrying it |
| JiraProperties.FiledLastWins | agents/llm_jira.py:110-174 | after all batches, `jira_by_idx` holds exactly the idx some reply filed, each with the last draft filed for it across all replies |
| JiraProperties.DraftPositionsExact | agents/llm_jira.py:176-199 | the draft positions ascend strictly and are exactly the selected items whose idx was filed |
| JiraProperties.JoinedByPosition | agents/llm_jira.py:176-199 | draft j is built from the j-th selected item with a filed idx, in selection order, with the draft filed under that idx |
| JiraProperties.DraftsInSelectionOrder | agents/llm_jira.py:88-199 | the stage's drafts are none when nothing is selected, and otherwise one per selected item whose idx was filed, in selection order, with its filed draft |
| JiraProperties.EveryItemAccounted | agents/llm_jira.py:67-218 | every item is accounted for: a selected item is drafted or skipped with "no Jira draft returned", any other item is skipped as "not selected" (index and reason only when nothing is selected), so drafts and skips together are at least as many as the items |
| FilterSuggestions.BuildPayloads | agents/llm_filter.py:97-120 | the loop builds the payloads |
| FilterSuggestions.RecordItems | agents/llm_filter.py:135-144 | the item loop computes `Record` |
| FilterSuggestions.BuildSuggestions | agents/llm_filter.py:146-171 | the suggestion loop computes `Suggest` |
| FilterSuggestions.RunFilter | agents/llm_filter.py:85-179 | `run` computes `FilterStage` |
| FilterProperties.EmptyDraftsAsksNothing | agents/llm_filter.py:89-92 | no drafts: no call, no suggestions, count 0 |
| FilterProperties.BatchesPartition | agents/llm_filter.py:96 | batches are non-empty, at most 12 long, and concatenate to the drafts |
| FilterProperties.IndexChoice | agents/llm_filter.py:109 | the cluster idx is the draft's `idx` when truthy, else the embedded cluster's |
| FilterProperties.IndexZeroFallsThrough | agents/llm_filter.py:109 | idx 0 falls through to the embedded cluster's idx |
| FilterProperties.RecordKeys | agents/llm_filter.py:135-144 | the table gains exactly the idx of every dict item with non-None `idx` and non-None clause |
| FilterProperties.RecordLastWins | agents/llm_filter.py:144 | the last such item for an idx wins |
| FilterProperties.BadReplyRecordsNothing | agents/llm_filter.py:128-133 | a non-dict reply, or a truthy non-list `items`, records nothing |
| FilterProperties.PositionsExact | agents/llm_filter.py:148-171 | the positions of the qualifying drafts strictly ascend, lie within the drafts, and are exactly the drafts whose idx maps to a truthy clause |
| FilterProperties.SuggestByPosition | agents/llm_filter.py:148-171 | suggestion j is built from the j-th qualifying draft: the positions strictly ascend and are exactly the drafts whose idx maps to a truthy clause, so there is one suggestion per such draft, in draft order |
| FilterProperties.RecordAllKeys | agents/llm_filter.py:96-144 | across all batches, `clauses_by_idx` has an entry under an idx iff some batch's reply records a non-None clause under it |
| FilterProperties.RecordAllLastWins | agents/llm_filter.py:96-144 | across all batches, the clause kept under an idx is the one of the last item, over all replies in order, that records it |
| FilterProperties.DraftSuggested | agents/llm_filter.py:96-171 | a draft is suggested iff some batch's reply records a clause under its idx and the clause kept there is truthy |
| FilterProperties.SuggestionsHaveClauses | agents/llm_filter.py:161-171 | every suggestion carries a truthy clause |
| FilterProperties.CountBound | agents/llm_filter.py:164-179 | the count is the number of suggestions and at most the number of drafts |
| Summary.BuildSummary | tools/summary.py:20-56 | the loop computes `cluster_count == triaged_cluster_count ==` the number of items, the label and priority tallies, the internal-high count and the raw log count |
| Summary.TallySnoc | tools/summary.py:36-39 | one more value bumps its counter, and a blank value changes nothing |
| Summary.SummaryStep | tools/summary.py:30-42 | one loop step updates both tallies and the internal-high count |
| Summary.TallyCounts | tools/summary.py:36-39 | the tally's keys are exactly the non-blank values, each mapped to its number of occurrences |
| Summary.InternalHighBounded | tools/summary.py:36-42 | `internal_high_count <= by_label["internal_error"]` and `<= by_priority["high"]` |
| Summary.TallyTotal | tools/summary.py:36-39 | a tally's values add up to the number of non-blank values |
| Summary.SummaryInvariants | agents/summary.py:89-109 | the label and priority totals are at most `cluster_count`, the internal-high count is bounded by both tallies, and `cluster_count == triaged_cluster_count` |
| Summary.MapSumBump | tools/summary.py:37 | bumping a counter adds one to the total |
| Planning.BaselineDecisions | tools/executor.py:20-71 | the baseline plan has exactly three actions, Jira, filters and Confluence; Jira runs iff `internal_high_count > 0`, filters iff `triaged_cluster_count > 0`, Confluence iff either does |
| Planning.BaselineSections | tools/executor.py:34-38 | sections start with "summary", and contain "jira_links" iff Jira runs and "filters" iff filters run or an external_service or noise count is above 0 |
| Planning.PlanActions | agents/llm_orchestrator.py:84-147 | the normalisation loop computes `PlanOf` |
| Planning.NormalizeSpec | agents/llm_orchestrator.py:110-138 | an action is kept iff its agent is one of the three known names, and then `run` is the truthiness of the given value |
| Planning.NormalizeDefaults | agents/llm_orchestrator.py:117-136 | Jira options pass through (None when absent), and missing `for_labels` / `include_sections` get their defaults |
| Planning.NormalizedFromInput | agents/llm_orchestrator.py:109-138 | no more actions come out than went in, and each names a known agent and is the normalisation of an input action |
| Planning.NormalizeAppend | agents/llm_orchestrator.py:109-138 | normalising a concatenation gives the two normalised lists one after the other, so the kept actions stay in input order |
| Planning.KnownAgentsKept | agents/llm_orchestrator.py:109-138 | every input action naming a known agent appears normalised in the output |
| Planning.NoActionsRunsNothing | agents/llm_orchestrator.py:84-106 | a reply without a non-empty action list gives the three default actions, none run |
| Planning.DefaultsKept | agents/llm_orchestrator.py:87-106 | normalising the default actions gives them back, including `["summary"]` |
| Planning.PlanDefaults | agents/llm_orchestrator.py:140-147 | `reason` defaults to "no reason provided" and `global_policy` to `{}` |
| Dispatch.ExecuteActions | tools/executor.py:73-111 | the action loop makes the calls `Calls` and stores the results `Results` |
| Dispatch.StepSpec | tools/executor.py:77-108 | an action leads to a call iff `run` is truthy and its agent is known; the call is to that agent |
| Dispatch.StepArguments | agents/executor.py:29-53 | the arguments each executor passes: `cluster_indices` (or `[]` in the agents copy), mode, `for_labels`/`min_count`, `include_sections` |
| Dispatch.ResultKeys | tools/executor.py:85-108 | result keys are among the three fixed names, and a key is present iff some action stored under it |
| Dispatch.LastStoredWins | agents/executor.py:21-58 | the last action of an agent decides its result |
| Dispatch.CallsAppend | tools/executor.py:77-108 | actions are run in plan order |
| Dispatch.PipelineBranches | tools/executor.py:123-150 | (corrected: every call matched to its callee) zero logs returns exactly `{"log_count": 0, "stopped": "no_logs"}`; otherwise the orchestrator plan in mode "orchestrator" (and always in the agents copy), else the baseline plan |
| Dispatch.PipelineAsWrittenRaises | tools/executor.py:121-147 | as written, the agents copy always raises and the tools copy raises exactly in mode "orchestrator" with logs; otherwise it returns what the corrected pipeline returns, which never raises |
| Dispatch.AgentsPipelineNeverReturns | agents/executor.py:73-80 | with no logs, the agents copy as written raises where the corrected one returns the early stop |
| Dispatch.BaselineStored | tools/executor.py:20-111 | running the baseline plan stores each agent's result iff the plan runs it |
| Dispatch.BaselineFromSummary | tools/executor.py:139-153 | in baseline mode, Jira runs iff some item is internal_error with high priority, and filters iff some item was triaged |
| Feedback.Ledger.Save | agents/feedback.py:18-20 | after saving, the ledger holds exactly the saved list |
| Feedback.Ledger.Append | agents/feedback.py:23-26 | an append keeps the earlier entries in order and adds the entry last (one more entry); it fails, writing nothing, when the file holds a non-list |
| Feedback.UnreadableOverwritten | agents/feedback.py:9-26 | a missing or unreadable ledger loads as `[]`, so an append replaces it with a list holding only the new entry and whatever the file held is lost |
| Feedback.AppendsInOrder | agents/feedback.py:23-26 | appending entries one by one to a ledger holding a list gives that list followed by exactly those entries, in order; from a missing or unreadable file, exactly those entries |
| Feedback.NonListBlocks | agents/feedback.py:23-26 | a ledger holding a JSON value that is not a list refuses every append and never changes |
| FeedbackReview.ReadDecision | tools/feedback_review.py:59-99 | the prompt loop consumes at least one line and leaves a suffix of the script |
| FeedbackReview.Prompt | tools/feedback_review.py:59-99 | the re-prompting loop finds the first recognised answer, or reports that input ran out |
| FeedbackReview.ReviewDraft | tools/feedback_review.py:33-102 | one draft: approve/reject appends one entry to the ledger and moves on; skip ends the review |
| FeedbackReview.ToolsReview | tools/feedback_review.py:22-110 | `run` returns the counts of the scripted session and appends exactly its entries to the ledger |
| FeedbackReview.ToolsStep | tools/feedback_review.py:59-102 | a session is its first decision followed by the rest of the session |
| FeedbackReview.AgentsStep | agents/feedback_review.py:61-88 | one draft: q quits, y/n read a reason and record, anything else passes |
| FeedbackReview.AgentsDraft | agents/feedback_review.py:36-89 | one draft's loop body keeps the ledger invariant |
| FeedbackReview.AgentsReview | agents/feedback_review.py:19-93 | `run` returns the counts of the scripted session and appends exactly its entries to the ledger |
| FeedbackReviewProperties.ReadDecisionFirst | tools/feedback_review.py:59-99 | the prompt runs out iff no line is recognised, and otherwise returns the first recognised line's decision and the lines after it |
| FeedbackReviewProperties.ToolsSessionCounts | tools/feedback_review.py:104-110 | approved + rejected == entries written, at most the number of drafts |
| FeedbackReviewProperties.ToolsSessionEntries | tools/feedback_review.py:61-92 | entry k records the k-th decided draft's signature, decision, source, summary and service (and label on reject), stamped by the clock |
| FeedbackReviewProperties.ToolsSessionApprovals | tools/feedback_review.py:61-92 | the approved count equals the entries with decision "approved" |
| FeedbackReviewProperties.ToolsAllDecided | tools/feedback_review.py:33-102 | a session that neither skipped nor ran out wrote one entry per draft |
| FeedbackReviewProperties.AgentsSessionCounts | agents/feedback_review.py:72-93 | `reviewed == written == len(entries)`, at most the number of drafts |
| FeedbackReviewProperties.AgentsSessionOrder | agents/feedback_review.py:36-88 | entries record drafts in draft order |
| FeedbackReviewProperties.AgentsSessionStamps | agents/feedback_review.py:77-78 | entry k is stamped by the clock's k-th reading |
| FeedbackReviewProperties.AgentsEntryFields | agents/feedback_review.py:74-86 | an entry has decision "approved" iff y, and a blank reason is stored as None |
| FeedbackReviewProperties.AgentsSkipLikeInvalid | agents/feedback_review.py:65-70 | "s" and any unrecognised answer both skip the current draft only |
| QueryRange.Alloc | utils/log_source.py:33 | a new dict or list is at a fresh address |
| QueryRange.EnsureBase | utils/log_source.py:35-38 | the `query` level is a dict afterwards (or the function raises), and no container disappears |
| QueryRange.EnsureBool | utils/log_source.py:40-43 | the `bool` level is a dict afterwards (or the function raises) |
| QueryRange.EnsureMust | utils/log_source.py:45-48 | the `must` level is a list afterwards (or the function raises) |
| QueryRange.Memory.AnyRange | utils/log_source.py:51-54 | the `any(...)` loop computes `HasRange`, including Python's `in` on strings and lists |
| QueryRange.Memory.EnsureLast24hRange | utils/log_source.py:28-65 | the in-place function changes the heap exactly as `Ensure` says |
| QueryRangeProperties.EnsureClosed | utils/log_source.py:33-63 | the rewrite never creates a dangling reference |
| QueryRangeProperties.AddRangeSpec | utils/log_source.py:50-63 | no range clause: exactly one range clause (`gte now-1d`, `lte now`) is appended at the end; otherwise `must` is unchanged |
| QueryRangeProperties.HasRangeAppend | utils/log_source.py:51-54 | `any` over a concatenation |
| QueryRangeProperties.EnsureAddsRange | utils/log_source.py:28-65 | the result is a fresh dict with the caller's other top-level keys, whose `query.bool.must` holds a range clause |
| QueryRangeProperties.EnsureExisting | utils/log_source.py:33-65 | on a complete query the caller's own `must` list is shared and changed in place: existing clauses keep order and contents, and one range clause is appended iff none was there |
| QueryRangeProperties.EnsureCreates | utils/log_source.py:35-63 | an empty `query` is replaced in the copy by `{"bool": {"must": [range]}}`, and the caller's dict is untouched |
| QueryRangeProperties.CopyOnly | utils/log_source.py:51-65 | with a range already present, only the top-level copy is made |
| QueryRangeProperties.EnsureIdempotent | utils/log_source.py:28-65 | applying the function to its own result only copies: twice is once |
| QueryRangeProperties.EnsureRejects | utils/log_source.py:40 | a truthy non-dict `query` raises, leaving the caller's dict unchanged |
| Metrics.LlmUsage.constructor | utils/metrics.py:5-9 | a new record has all three counters at 0 |
| Metrics.LlmUsage.ToDict | utils/metrics.py:15-18 | the dict holds the three counters and `total_tokens`, which equals prompt + completion tokens |
| Metrics.ResetLlmUsage | utils/metrics.py:23-26 | the shared record's counters are 0 and its dict reads all zeros |

## Left out

- LogPreprocessor.TsKey: a timestamp that is not a string sorts as "" in the model. A record's `timestamp` comes from `@timestamp` or `timestamp` (tools/log_preprocessor.py:16) and may be a number. Python's sort (tools/log_preprocessor.py:33) compares numbers numerically, and raises TypeError when it compares a number with a string, including the "" of a missing timestamp. So `LogPreprocessor.SortByTime`, `ClusterProperties.SampleIsEarliest` and `ClusterProperties.TimestampsAscending` describe the code only for groups whose timestamps are all strings or missing.
- File and network I/O (the JSON files each stage reads and writes, Elasticsearch, Groq, Jira and Confluence clients) is not modelled. Stages take the loaded values and return what they would write.
- `rich` console output and prompt texts are not modelled. The language model's replies, SHA-1, the operator's input lines and the clock are parameters.
- Floating-point values (`confidence`, `duration_seconds`) are not modelled: every JSON number is an integer.
- Python exceptions on wrongly typed values are not modelled, except where the model tracks them:
  - `int()` on a bad idx is tracked (the refiner, triage);
  - a non-dict `query` level is tracked;
  - exhausted input is tracked.
  
  Other exceptions are not: `.get` on a non-dict or iterating a number, for example. The model reads a wrongly typed dict as empty and a non-list as yielding nothing.
- Dict key order is not modelled (`Obj` is a map). Where order matters, the model keeps it as an explicit sequence: the clusterer's first-seen keys.
- Python `in` is modelled on strings, lists and dicts in `_ensure_last_24h_range`. `in` on other types, which raises in Python, yields no answer.
- `\d` in `make_cluster_signature` is modelled as ASCII `0`-`9`; Python also matches other Unicode decimal digits. `strip()` is modelled on the ASCII characters Python counts as whitespace (space, `\t` to `\r`, `\x1c` to `\x1f`); it does not remove non-ASCII whitespace such as `\x85` or `\xa0`. `lower()` is modelled on ASCII letters.
- `splitlines()` is modelled for the line breaks `\n`, `\r`, `\r\n`, `\v`, `\f`, `\x1c`-`\x1e`, `\x85`, `\u2028` and `\u2029`. The prefix properties of the stack excerpt are proved for `\n`-only logs.
- `TRIAGE_TOP_N` is `None` in the source, so the truncation at agents/llm_triage.py:89-90 never happens and is not modelled.
- The copy of `_normalize`, `_cluster`, `build_summary` and `_load_raw_logs_count` in agents/ is identical to the one in tools/ and is modelled once.
- The agents executor and the agents review are modelled separately, because they differ.
- Some call sites do not match their callees:
  - tools/executor.py:145 passes three arguments to `plan_actions`, which takes one (agents/llm_orchestrator.py:65);
  - agents/executor.py:73 passes `source=` to the preprocessor's `run(context)` (agents/log_preprocessor.py:51);
  - agents/executor.py:92 passes two arguments to `plan_actions`;
  - agents/executor.py:41-44 and :52 pass keyword arguments that the filter and Confluence `run` functions do not accept.
  
  In Python these raise. So the agents `run_full_pipeline` always raises at :73, and the tools one raises in mode "orchestrator" whenever there are logs. `Dispatch.PipelineAsWritten` models the pipeline as written (see Findings below); `Dispatch.Pipeline` and the rest of the model use the calls matched to their callees. Each stage function is modelled by its own definition, and the dispatch records the call with its arguments.
- Python dicts treat `True` and `1` (and `False` and `0`) as the same key. The model's tables (`jira_by_idx` in JiraDrafts.Accept, `clauses_by_idx` in FilterSuggestions.Record and FilterSuggestions.ClauseFor, agents/llm_jira.py:174,178 and agents/llm_filter.py:144,159) are maps on JSON values that keep `JBool(true)` and `JInt(1)` apart. A reply item with `"idx": true` for a cluster numbered 1 is used by Python and not by the model. The membership test `idx in cluster_indices` (JiraDrafts.IndexIn) does treat them as equal.
- `int()` of a string is modelled on optional sign, surrounding whitespace and ASCII digits. Python also accepts underscores between digits (`int("1_0") == 10`); the model rejects such strings, so it reports a failure where Python would go on.
- Nothing in the shown code increments `LLM_USAGE`, so only construction, `to_dict` and the reset are modelled.
- Feedback-aware planning, exception isolation per agent and the Confluence agent are not part of this model.
- FeedbackReview.ToolsReview requires the ledger to hold a list. When it holds another JSON value, the first append raises, and the session model does not follow that path. `Feedback.Ledger.Append` does.
- FeedbackReview.AgentsReview makes the same assumption about the ledger, for the same reason.
- RefinerProperties.RefineConserves is stated for clusters without `idx`, as the clusterer writes them. With caller-supplied duplicate or negative idx values, `cluster_by_idx` drops clusters and the total is not conserved.
- ClusterRefiner.MemberValues: a truthy dict `member_idxs` makes the model skip the group. Python iterates the dict's keys and converts each with `int()` (agents/llm_cluster_refiner.py:124,131), so `{"3": 1}` merges index 3. The model has no key order for dicts, which that iteration would need.
- ClusterRefiner.Compact states only the length of the compact view. Each entry's fields are the body's direct projection.
- LogText.ExcerptOfPlainLog proves the prefix property only for logs whose line breaks are all `\n`.
- QueryRange: the shallow copy's aliasing is modelled through an explicit heap of dicts and lists. Python object identity beyond dicts and lists (strings, numbers) is not modelled.

## Findings

| source | as written | input that shows it | evidently intended | confidence | as-written member | corrected member |
|---|---|---|---|---|---|---|
| agents/executor.py:73 | `preprocess_run(context, source=source)` passes a keyword the preprocessor's `run(context)` does not take; :92 then passes two arguments to the one-argument `plan_actions` | `run_full_pipeline()` with no logs at all: TypeError instead of `{"log_count": 0, "stopped": "no_logs"}` | preprocess, stop early without logs, otherwise plan with the orchestrator and execute | not executed | Dispatch.AgentsPipelineNeverReturns | Dispatch.PipelineBranches |
| tools/executor.py:145 | `plan_actions(summary, triaged_items, use_feedback=use_feedback)` passes two more arguments than `plan_actions(summary)` takes | `run_full_pipeline()` with its defaults (mode "orchestrator") and one log: TypeError | plan with the orchestrator from the summary and execute that plan | not executed | Dispatch.PipelineAsWrittenRaises | Dispatch.PipelineBranches |
| agents/llm_cluster_refiner.py:135 | the survivor filter drops indices used by earlier groups but keeps repeats within one group's `member_idxs`, so that cluster's count is added once per repeat | one cluster with count 5 and the reply `{"groups": [{"canonical_idx": 0, "member_idxs": [0, 0]}]}`: the refined total is 10 | each original index is consumed at most once, so the count total is conserved | not executed | RefinerProperties.RepeatedIndexDoubleCounts | RefinerProperties.RefineConserves |
