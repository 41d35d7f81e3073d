/**
 * Dispatch: `execute_actions` of tools/executor.py and of its older copy
 * agents/executor.py, which run the plan's actions in order, skip those not
 * marked to run, and store each agent's result under a fixed key; and the
 * part of `run_full_pipeline` that stops early without logs and picks the
 * plan.
 *
 * An agent run is recorded as the call made (agent and keyword arguments);
 * what the agent then does is modelled by its own stage.
 */
module Dispatch {
  import opened JsonValues
  import opened Planning
  import Summary

  /** One agent invocation: which agent, with which keyword arguments. */
  datatype Call = Call(agent: string, args: Obj)

  const JiraKey := "jira_drafts"
  const FiltersKey := "filter_suggestions"
  const ConfluenceKey := "confluence_draft"

  /** Which executor: the one in tools/ (which also passes the run mode) or the older one in agents/. */
  datatype Executor = ToolsExecutor(mode: string) | AgentsExecutor

  /** The call an action leads to, with the key its result is stored under; None when it is skipped or unknown. */
  function Step(ex: Executor, act: Obj): Option<(string, Call)> {
    var agent := Get(act, "agent");
    if !Truthy(GetOr(act, "run", JBool(false))) then None
    else if agent == JStr(Jira) then
      Some((JiraKey, Call(Jira,
        if ex.ToolsExecutor?
        then map["cluster_indices" := Get(act, "cluster_indices"), "mode" := JStr(ex.mode)]
        else map["cluster_indices" := Or(Get(act, "cluster_indices"), JArr([]))])))
    else if agent == JStr(Filters) then
      Some((FiltersKey, Call(Filters,
        if ex.ToolsExecutor? then map[]
        else map["for_labels" := Get(act, "for_labels"), "min_count" := Get(act, "min_count")])))
    else if agent == JStr(Confluence) then
      Some((ConfluenceKey, Call(Confluence,
        if ex.ToolsExecutor? then map[]
        else map["include_sections" := Get(act, "include_sections")])))
    else None
  }

  /** The calls made, in plan order. */
  function Calls(ex: Executor, actions: seq<Json>): seq<Call>
    decreases |actions|
  {
    if actions == [] then []
    else
      var rest := Calls(ex, actions[..|actions| - 1]);
      match Step(ex, AsObj(actions[|actions| - 1]))
      case Some(kc) => rest + [kc.1]
      case None => rest
  }

  /** The results dict, each key holding the call whose result was stored last. */
  function Results(ex: Executor, actions: seq<Json>): map<string, Call>
    decreases |actions|
  {
    if actions == [] then map[]
    else
      var rest := Results(ex, actions[..|actions| - 1]);
      match Step(ex, AsObj(actions[|actions| - 1]))
      case Some(kc) => rest[kc.0 := kc.1]
      case None => rest
  }

  /** `plan.get("actions", [])`, iterated. */
  function PlanActions(plan: Obj): seq<Json> {
    Elements(GetOr(plan, "actions", JArr([])))
  }

  /** `execute_actions(plan)`: the agents called, in order, and the results dict. */
  method ExecuteActions(ex: Executor, plan: Obj) returns (calls: seq<Call>, results: map<string, Call>)
    ensures calls == Calls(ex, PlanActions(plan))
    ensures results == Results(ex, PlanActions(plan))
  {
    var actions := PlanActions(plan);
    calls := [];
    results := map[];
    for i := 0 to |actions|
      invariant calls == Calls(ex, actions[..i])
      invariant results == Results(ex, actions[..i])
    {
      assert actions[..i + 1][..i] == actions[..i];
      var act := AsObj(actions[i]);
      var agent := Get(act, "agent");
      var runFlag := GetOr(act, "run", JBool(false));
      if !Truthy(runFlag) {
        continue;
      }
      if agent == JStr(Jira) {
        var args := if ex.ToolsExecutor?
          then map["cluster_indices" := Get(act, "cluster_indices"), "mode" := JStr(ex.mode)]
          else map["cluster_indices" := Or(Get(act, "cluster_indices"), JArr([]))];
        calls := calls + [Call(Jira, args)];
        results := results[JiraKey := Call(Jira, args)];
      } else if agent == JStr(Filters) {
        var args := if ex.ToolsExecutor? then map[]
          else map["for_labels" := Get(act, "for_labels"), "min_count" := Get(act, "min_count")];
        calls := calls + [Call(Filters, args)];
        results := results[FiltersKey := Call(Filters, args)];
      } else if agent == JStr(Confluence) {
        var args := if ex.ToolsExecutor? then map[]
          else map["include_sections" := Get(act, "include_sections")];
        calls := calls + [Call(Confluence, args)];
        results := results[ConfluenceKey := Call(Confluence, args)];
      }
    }
    assert actions[..|actions|] == actions;
  }

  // ---------------------------------------------------------------------
  // What dispatch guarantees
  // ---------------------------------------------------------------------

  /** An action runs iff its `run` is truthy and its agent is known; its result key is fixed by the agent. */
  lemma StepSpec(ex: Executor, act: Obj)
    ensures Step(ex, act).Some? <==> Truthy(GetOr(act, "run", JBool(false))) && KnownAgent(Get(act, "agent"))
    ensures Step(ex, act).Some? ==> JStr(Step(ex, act).value.1.agent) == Get(act, "agent")
    ensures Step(ex, act).Some? ==>
      (Step(ex, act).value.0 == JiraKey <==> Get(act, "agent") == JStr(Jira))
      && (Step(ex, act).value.0 == FiltersKey <==> Get(act, "agent") == JStr(Filters))
      && (Step(ex, act).value.0 == ConfluenceKey <==> Get(act, "agent") == JStr(Confluence))
  {
  }

  /** The arguments each executor passes: the tools executor the run mode, the agents executor `cluster_indices or []` and the action's options. */
  lemma StepArguments(ex: Executor, act: Obj)
    requires Step(ex, act).Some?
    ensures var c := Step(ex, act).value.1;
      match ex
      case ToolsExecutor(mode) =>
        (c.agent == Jira ==> c.args == map["cluster_indices" := Get(act, "cluster_indices"), "mode" := JStr(mode)])
        && (c.agent != Jira ==> c.args == map[])
      case AgentsExecutor =>
        (c.agent == Jira ==> c.args == map["cluster_indices" := Or(Get(act, "cluster_indices"), JArr([]))])
        && (c.agent == Filters ==> c.args == map["for_labels" := Get(act, "for_labels"), "min_count" := Get(act, "min_count")])
        && (c.agent == Confluence ==> c.args == map["include_sections" := Get(act, "include_sections")])
  {
  }

  /** Action j of the plan leads to a result stored under k. */
  predicate StoredAt(ex: Executor, actions: seq<Json>, j: int, k: string) {
    0 <= j < |actions| && Step(ex, AsObj(actions[j])).Some? && Step(ex, AsObj(actions[j])).value.0 == k
  }

  ghost predicate SomeStored(ex: Executor, actions: seq<Json>, k: string) {
    exists j :: StoredAt(ex, actions, j, k)
  }

  lemma SomeStoredSnoc(ex: Executor, actions: seq<Json>, k: string)
    requires actions != []
    ensures SomeStored(ex, actions, k) <==>
      SomeStored(ex, actions[..|actions| - 1], k) || StoredAt(ex, actions, |actions| - 1, k)
  {
    var p := actions[..|actions| - 1];
    if SomeStored(ex, p, k) {
      var j :| StoredAt(ex, p, j, k);
      assert actions[j] == p[j];
      assert StoredAt(ex, actions, j, k);
    }
    if SomeStored(ex, actions, k) && !StoredAt(ex, actions, |actions| - 1, k) {
      var j :| StoredAt(ex, actions, j, k);
      assert p[j] == actions[j];
      assert StoredAt(ex, p, j, k);
    }
  }

  /**
   * The result keys are among the three fixed names, and a key is present
   * exactly when some action that runs stores under it; skipped actions and
   * unknown agents add nothing.
   */
  lemma {:induction false} ResultKeys(ex: Executor, actions: seq<Json>)
    ensures forall k :: k in Results(ex, actions) ==> k == JiraKey || k == FiltersKey || k == ConfluenceKey
    ensures forall k :: k in Results(ex, actions) <==> SomeStored(ex, actions, k)
    decreases |actions|
  {
    if actions != [] {
      ResultKeys(ex, actions[..|actions| - 1]);
      forall k
        ensures SomeStored(ex, actions, k) <==>
          SomeStored(ex, actions[..|actions| - 1], k) || StoredAt(ex, actions, |actions| - 1, k)
      {
        SomeStoredSnoc(ex, actions, k);
      }
    }
  }

  /** The result under a key comes from the last action storing under it. */
  lemma {:induction false} LastStoredWins(ex: Executor, actions: seq<Json>, j: nat, k: string)
    requires StoredAt(ex, actions, j, k)
    requires forall j' :: j < j' < |actions| ==> !StoredAt(ex, actions, j', k)
    ensures k in Results(ex, actions) && Results(ex, actions)[k] == Step(ex, AsObj(actions[j])).value.1
    decreases |actions|
  {
    var m := |actions| - 1;
    if j < m {
      var p := actions[..m];
      assert p[j] == actions[j];
      forall j' | j < j' < |p|
        ensures !StoredAt(ex, p, j', k)
      {
        assert p[j'] == actions[j'];
        assert !StoredAt(ex, actions, j', k);
      }
      assert StoredAt(ex, p, j, k);
      LastStoredWins(ex, p, j, k);
      assert !StoredAt(ex, actions, m, k);
    }
  }

  /** Running works action by action: the calls of a plan are the calls of its parts, in order. */
  lemma {:induction false} CallsAppend(ex: Executor, xs: seq<Json>, ys: seq<Json>)
    ensures Calls(ex, xs + ys) == Calls(ex, xs) + Calls(ex, ys)
    decreases |ys|
  {
    if ys == [] {
      assert xs + ys == xs;
    } else {
      var p := ys[..|ys| - 1];
      CallsAppend(ex, xs, p);
      assert (xs + ys)[..|xs + ys| - 1] == xs + p;
      assert (xs + ys)[|xs + ys| - 1] == ys[|ys| - 1];
    }
  }

  /** The calls are made for exactly the actions that run, in order, one each. */
  lemma CallsOfOne(ex: Executor, act: Json)
    ensures Calls(ex, [act]) == match Step(ex, AsObj(act)) case Some(kc) => [kc.1] case None => []
  {
    assert [act][..0] == [];
  }

  // ---------------------------------------------------------------------
  // The pipeline
  // ---------------------------------------------------------------------

  /**
   * What `run_full_pipeline` returns: the early stop, or the plan with the
   * calls it led to; or the exception a call whose arguments its callee
   * does not accept raises.
   */
  datatype PipelineResult =
    | Stopped(result: Obj)
    | Completed(summary: Obj, plan: Obj, calls: seq<Call>, results: map<string, Call>)
    | Raised(error: string)

  const NoLogs: Obj := map["log_count" := JInt(0), "stopped" := JStr("no_logs")]

  /**
   * `run_full_pipeline` of either executor, from the number of preprocessed
   * logs on, with every call matched to its callee: the summary and the
   * orchestrator's reply are parameters. The tools executor plans with the
   * orchestrator only in mode "orchestrator", the agents executor always
   * does. `PipelineAsWritten` is the pipeline with the calls as they are
   * written.
   */
  function Pipeline(ex: Executor, logCount: nat, summary: Obj, orchestratorReply: Json): PipelineResult {
    if logCount == 0 then Stopped(NoLogs)
    else
      var plan := if ex.ToolsExecutor? && ex.mode != "orchestrator" then BaselinePlan(summary) else PlanOf(orchestratorReply);
      Completed(summary, plan, Calls(ex, PlanActions(plan)), Results(ex, PlanActions(plan)))
  }

  /** The early stop and the choice of plan. */
  lemma PipelineBranches(ex: Executor, logCount: nat, summary: Obj, reply: Json)
    ensures logCount == 0 <==> Pipeline(ex, logCount, summary, reply) == Stopped(map["log_count" := JInt(0), "stopped" := JStr("no_logs")])
    ensures logCount > 0 && ex == ToolsExecutor("orchestrator") ==> Pipeline(ex, logCount, summary, reply).plan == PlanOf(reply)
    ensures logCount > 0 && ex.ToolsExecutor? && ex.mode != "orchestrator" ==> Pipeline(ex, logCount, summary, reply).plan == BaselinePlan(summary)
    ensures logCount > 0 && ex.AgentsExecutor? ==> Pipeline(ex, logCount, summary, reply).plan == PlanOf(reply)
  {
  }

  /**
   * `run_full_pipeline` with the calls as written. The agents copy passes
   * `source=` to a preprocessor `run` that takes only the context, so it
   * raises before counting the logs; the tools copy passes the triaged
   * items and `use_feedback=` to a `plan_actions` that takes only the
   * summary, so in mode "orchestrator" it raises once there are logs.
   */
  function PipelineAsWritten(ex: Executor, logCount: nat, summary: Obj, orchestratorReply: Json): PipelineResult {
    if ex.AgentsExecutor? then Raised("TypeError")
    else if logCount > 0 && ex.mode == "orchestrator" then Raised("TypeError")
    else Pipeline(ex, logCount, summary, orchestratorReply)
  }

  /**
   * As written, the agents copy always raises and the tools copy raises
   * exactly in mode "orchestrator" with logs; in every other case it agrees
   * with the corrected pipeline, which never raises.
   */
  lemma PipelineAsWrittenRaises(ex: Executor, logCount: nat, summary: Obj, reply: Json)
    ensures !Pipeline(ex, logCount, summary, reply).Raised?
    ensures PipelineAsWritten(ex, logCount, summary, reply).Raised?
            <==> ex.AgentsExecutor? || (logCount > 0 && ex.mode == "orchestrator")
    ensures !PipelineAsWritten(ex, logCount, summary, reply).Raised? ==>
            PipelineAsWritten(ex, logCount, summary, reply) == Pipeline(ex, logCount, summary, reply)
  {
  }

  /** Even without logs, the agents copy as written raises where the corrected one stops early. */
  lemma AgentsPipelineNeverReturns(summary: Obj, reply: Json)
    ensures PipelineAsWritten(AgentsExecutor, 0, summary, reply) == Raised("TypeError")
    ensures Pipeline(AgentsExecutor, 0, summary, reply) == Stopped(NoLogs)
  {
  }

  /** The keys the baseline plan's actions store under: each agent's key iff the plan runs it. */
  lemma BaselineStored(mode: string, summary: Obj)
    ensures var ex := ToolsExecutor(mode);
      var actions := PlanActions(BaselinePlan(summary));
      var dc := Decide(summary);
      (SomeStored(ex, actions, JiraKey) <==> dc.runJira)
      && (SomeStored(ex, actions, FiltersKey) <==> dc.runFilters)
      && (SomeStored(ex, actions, ConfluenceKey) <==> dc.runConfluence)
  {
    var dc := Decide(summary);
    assert PlanActions(BaselinePlan(summary)) == BaselineActions(dc);
    BaselineStoresJira(ToolsExecutor(mode), dc);
    BaselineStoresFilters(ToolsExecutor(mode), dc);
    BaselineStoresConfluence(ToolsExecutor(mode), dc);
  }

  /** The baseline plan stores the Jira drafts exactly when it decided to run that agent. */
  lemma BaselineStoresJira(ex: Executor, dc: Decisions)
    ensures SomeStored(ex, BaselineActions(dc), JiraKey) <==> dc.runJira
  {
    var actions := BaselineActions(dc);
    assert StoredAt(ex, actions, 0, JiraKey) <==> dc.runJira;
    assert !StoredAt(ex, actions, 1, JiraKey) && !StoredAt(ex, actions, 2, JiraKey);
    StoredAmongThree(ex, actions, JiraKey);
  }

  /** The baseline plan stores the filter suggestions exactly when it decided to run that agent. */
  lemma BaselineStoresFilters(ex: Executor, dc: Decisions)
    ensures SomeStored(ex, BaselineActions(dc), FiltersKey) <==> dc.runFilters
  {
    var actions := BaselineActions(dc);
    assert StoredAt(ex, actions, 1, FiltersKey) <==> dc.runFilters;
    assert !StoredAt(ex, actions, 0, FiltersKey) && !StoredAt(ex, actions, 2, FiltersKey);
    StoredAmongThree(ex, actions, FiltersKey);
  }

  /** The baseline plan stores the Confluence summary exactly when it decided to run that agent. */
  lemma BaselineStoresConfluence(ex: Executor, dc: Decisions)
    ensures SomeStored(ex, BaselineActions(dc), ConfluenceKey) <==> dc.runConfluence
  {
    var actions := BaselineActions(dc);
    assert StoredAt(ex, actions, 2, ConfluenceKey) <==> dc.runConfluence;
    assert !StoredAt(ex, actions, 0, ConfluenceKey) && !StoredAt(ex, actions, 1, ConfluenceKey);
    StoredAmongThree(ex, actions, ConfluenceKey);
  }

  lemma StoredAmongThree(ex: Executor, actions: seq<Json>, k: string)
    requires |actions| == 3
    ensures SomeStored(ex, actions, k) <==> StoredAt(ex, actions, 0, k) || StoredAt(ex, actions, 1, k) || StoredAt(ex, actions, 2, k)
  {
    if SomeStored(ex, actions, k) {
      var j :| StoredAt(ex, actions, j, k);
      assert j == 0 || j == 1 || j == 2;
    }
  }

  /** The summary as the baseline planner reads it: its counts are positive exactly when they are above zero. */
  lemma SummaryCounts(s: Summary.SummaryRecord)
    ensures CountPositive(Summary.ToJson(s), "internal_high_count") <==> s.internalHighCount > 0
    ensures CountPositive(Summary.ToJson(s), "triaged_cluster_count") <==> s.triagedClusterCount > 0
  {
  }

  /**
   * In baseline mode, the Jira drafts agent is called iff some triaged item
   * is labelled "internal_error" with priority "high", the filter agent iff
   * there is a triaged item at all, and the Confluence agent iff either is.
   */
  lemma BaselineFromSummary(mode: string, logCount: nat, items: seq<Obj>, s: Summary.SummaryRecord, reply: Json)
    requires mode != "orchestrator" && logCount > 0
    requires s.triagedClusterCount == |items| && s.internalHighCount == Summary.InternalHighCount(items)
    ensures var r := Pipeline(ToolsExecutor(mode), logCount, Summary.ToJson(s), reply);
      (JiraKey in r.results <==> Summary.InternalHighCount(items) > 0)
      && (FiltersKey in r.results <==> |items| > 0)
      && (ConfluenceKey in r.results <==> Summary.InternalHighCount(items) > 0 || |items| > 0)
  {
    var summary := Summary.ToJson(s);
    ResultKeys(ToolsExecutor(mode), PlanActions(BaselinePlan(summary)));
    BaselineStored(mode, summary);
    SummaryCounts(s);
  }
}
