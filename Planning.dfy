/**
 * Planning: the static baseline plan (tools/executor.py
 * `build_baseline_plan`), a deterministic decision over the summary, and the
 * normalisation the orchestrator applies to the language model's plan
 * (agents/llm_orchestrator.py `plan_actions`), which keeps only the three
 * known agents and fills in defaults.
 *
 * The language model's reply is a parameter.
 */
module Planning {
  import opened JsonValues

  const Jira := "JiraDrafts"
  const Filters := "FilterSuggestions"
  const Confluence := "ConfluenceDraft"

  /** `x > 0` on a value read with `or 0`: an int above zero, or True. */
  predicate Positive(j: Json) {
    (j.JInt? && j.i > 0) || (j.JBool? && j.b)
  }

  /** `summary.get(k, 0) or 0 > 0`. */
  predicate CountPositive(d: Obj, k: string) {
    Positive(Or(GetOr(d, k, JInt(0)), JInt(0)))
  }

  // ---------------------------------------------------------------------
  // The baseline plan
  // ---------------------------------------------------------------------

  /** The decisions `build_baseline_plan` takes from the summary. */
  datatype Decisions = Decisions(runJira: bool, runFilters: bool, runConfluence: bool, sections: seq<string>)

  function ByLabel(summary: Obj): Obj {
    AsObj(Or(GetOr(summary, "by_label", JObj(map[])), JObj(map[])))
  }

  function Decide(summary: Obj): Decisions {
    var byLabel := ByLabel(summary);
    var hasExternal := Positive(GetOr(byLabel, "external_service", JInt(0)));
    var hasNoise := Positive(GetOr(byLabel, "noise", JInt(0)));
    var runJira := CountPositive(summary, "internal_high_count");
    var runFilters := CountPositive(summary, "triaged_cluster_count");
    var sections := ["summary"]
      + (if runJira then ["jira_links"] else [])
      + (if runFilters || hasExternal || hasNoise then ["filters"] else []);
    Decisions(runJira, runFilters, runJira || runFilters, sections)
  }

  const BaselineReason: string :=
    "Static pipeline plan without LLM orchestration: "
    + "always generate a KQL, Confluence summary, create Jira drafts "
    + "for high-priority internal errors, and suggest filters for "
    + "external_service noise."

  function Strings(xs: seq<string>): (r: seq<Json>)
    ensures |r| == |xs| && forall i :: 0 <= i < |xs| ==> r[i] == JStr(xs[i])
  {
    seq(|xs|, i requires 0 <= i < |xs| => JStr(xs[i]))
  }

  function BaselineActions(dc: Decisions): seq<Json> {
    [
      JObj(map["agent" := JStr(Jira), "run" := JBool(dc.runJira), "cluster_indices" := JNull]),
      JObj(map["agent" := JStr(Filters), "run" := JBool(dc.runFilters)]),
      JObj(map["agent" := JStr(Confluence), "run" := JBool(dc.runConfluence),
               "include_sections" := JArr(Strings(dc.sections))])
    ]
  }

  /** `build_baseline_plan(summary)`. */
  function BaselinePlan(summary: Obj): Obj {
    map[
      "actions" := JArr(BaselineActions(Decide(summary))),
      "global_policy" := JObj(map["ticket_strategy" := JStr("baseline"), "noise_handling" := JStr("basic_filters")]),
      "reason" := JStr(BaselineReason)]
  }

  /** The `run` flag of action i of a plan. */
  function ActionField(plan: Obj, i: nat, k: string): Json {
    var actions := Elements(Get(plan, "actions"));
    if i < |actions| then Field(actions[i], k) else JNull
  }

  /**
   * The baseline plan: three actions in the order Jira drafts, filter
   * suggestions, Confluence draft; Jira runs iff the internal/high count is
   * positive, filters iff some cluster was triaged, Confluence iff either
   * does.
   */
  lemma BaselineDecisions(summary: Obj)
    ensures |Elements(Get(BaselinePlan(summary), "actions"))| == 3
    ensures ActionField(BaselinePlan(summary), 0, "agent") == JStr(Jira)
    ensures ActionField(BaselinePlan(summary), 1, "agent") == JStr(Filters)
    ensures ActionField(BaselinePlan(summary), 2, "agent") == JStr(Confluence)
    ensures ActionField(BaselinePlan(summary), 0, "run") == JBool(CountPositive(summary, "internal_high_count"))
    ensures ActionField(BaselinePlan(summary), 1, "run") == JBool(CountPositive(summary, "triaged_cluster_count"))
    ensures ActionField(BaselinePlan(summary), 2, "run")
      == JBool(CountPositive(summary, "internal_high_count") || CountPositive(summary, "triaged_cluster_count"))
    ensures ActionField(BaselinePlan(summary), 2, "include_sections") == JArr(Strings(Decide(summary).sections))
  {
  }

  /**
   * The Confluence sections start with "summary", list "jira_links" iff Jira
   * runs and "filters" iff filters run or an external-service or noise label
   * was counted.
   */
  lemma BaselineSections(summary: Obj)
    ensures var sections := Decide(summary).sections;
      sections[0] == "summary"
      && ("jira_links" in sections <==> CountPositive(summary, "internal_high_count"))
      && ("filters" in sections <==>
           (CountPositive(summary, "triaged_cluster_count")
            || Positive(GetOr(ByLabel(summary), "external_service", JInt(0)))
            || Positive(GetOr(ByLabel(summary), "noise", JInt(0)))))
  {
    assert "filters" != "summary" && "filters" != "jira_links" && "jira_links" != "summary";
  }

  // ---------------------------------------------------------------------
  // Normalising the orchestrator's plan
  // ---------------------------------------------------------------------

  const DefaultLabels: seq<Json> := [JStr("timeout"), JStr("external_service"), JStr("noise")]
  const DefaultSections: seq<Json> := [JStr("summary"), JStr("jira_links"), JStr("filters")]

  /** The safe default when the reply has no usable actions: all three agents, none run. */
  const DefaultActions: seq<Json> := [
    JObj(map["agent" := JStr(Jira), "run" := JBool(false),
             "max_tickets" := JNull, "min_severity" := JNull, "min_confidence" := JNull]),
    JObj(map["agent" := JStr(Filters), "run" := JBool(false),
             "for_labels" := JArr(DefaultLabels), "min_count" := JNull]),
    JObj(map["agent" := JStr(Confluence), "run" := JBool(false),
             "include_sections" := JArr([JStr("summary")])])
  ]

  /** `out.get("actions")` when it is a non-empty list, the default actions otherwise. */
  function RawActions(out: Obj): seq<Json> {
    var actions := Get(out, "actions");
    if actions.JArr? && actions.items != [] then actions.items else DefaultActions
  }

  /** One action, normalised: None for an unknown agent. */
  function Normalize(a: Obj): Option<Obj> {
    var agent := Get(a, "agent");
    var run := JBool(Truthy(Get(a, "run")));
    if agent == JStr(Jira) then
      Some(map["agent" := agent, "run" := run,
               "max_tickets" := Get(a, "max_tickets"),
               "min_severity" := Get(a, "min_severity"),
               "min_confidence" := Get(a, "min_confidence")])
    else if agent == JStr(Filters) then
      Some(map["agent" := agent, "run" := run,
               "for_labels" := GetOr(a, "for_labels", JArr(DefaultLabels)),
               "min_count" := Get(a, "min_count")])
    else if agent == JStr(Confluence) then
      Some(map["agent" := agent, "run" := run,
               "include_sections" := GetOr(a, "include_sections", JArr(DefaultSections))])
    else None
  }

  function NormalizeAll(actions: seq<Json>): seq<Obj>
    decreases |actions|
  {
    if actions == [] then []
    else
      var rest := NormalizeAll(actions[..|actions| - 1]);
      match Normalize(AsObj(actions[|actions| - 1]))
      case Some(n) => rest + [n]
      case None => rest
  }

  function ObjsToJson(xs: seq<Obj>): (r: seq<Json>)
    ensures |r| == |xs| && forall i :: 0 <= i < |xs| ==> r[i] == JObj(xs[i])
  {
    seq(|xs|, i requires 0 <= i < |xs| => JObj(xs[i]))
  }

  /** The plan `plan_actions` returns for the reply `out`. */
  function PlanOf(out: Json): Obj {
    var o := AsObj(out);
    map[
      "actions" := JArr(ObjsToJson(NormalizeAll(RawActions(o)))),
      "global_policy" := GetOr(o, "global_policy", JObj(map[])),
      "reason" := GetOr(o, "reason", JStr("no reason provided"))]
  }

  /** The post-reply part of `plan_actions`, with the reply as a parameter. */
  method PlanActions(out: Json) returns (plan: Obj)
    ensures plan == PlanOf(out)
  {
    var o := AsObj(out);
    var actions := Get(o, "actions");
    var list: seq<Json>;
    if !actions.JArr? || |actions.items| == 0 {
      list := DefaultActions;
    } else {
      list := actions.items;
    }
    var normalized: seq<Obj> := [];
    for i := 0 to |list|
      invariant normalized == NormalizeAll(list[..i])
    {
      assert list[..i + 1][..i] == list[..i];
      var a := AsObj(list[i]);
      var agent := Get(a, "agent");
      if agent == JStr(Jira) {
        normalized := normalized + [map["agent" := JStr(Jira), "run" := JBool(Truthy(Get(a, "run"))),
          "max_tickets" := Get(a, "max_tickets"), "min_severity" := Get(a, "min_severity"),
          "min_confidence" := Get(a, "min_confidence")]];
      } else if agent == JStr(Filters) {
        normalized := normalized + [map["agent" := JStr(Filters), "run" := JBool(Truthy(Get(a, "run"))),
          "for_labels" := GetOr(a, "for_labels", JArr(DefaultLabels)), "min_count" := Get(a, "min_count")]];
      } else if agent == JStr(Confluence) {
        normalized := normalized + [map["agent" := JStr(Confluence), "run" := JBool(Truthy(Get(a, "run"))),
          "include_sections" := GetOr(a, "include_sections", JArr(DefaultSections))]];
      }
    }
    assert list[..|list|] == list;
    plan := map[
      "actions" := JArr(ObjsToJson(normalized)),
      "global_policy" := GetOr(o, "global_policy", JObj(map[])),
      "reason" := GetOr(o, "reason", JStr("no reason provided"))];
  }

  // ---------------------------------------------------------------------
  // What normalisation guarantees
  // ---------------------------------------------------------------------

  predicate KnownAgent(agent: Json) {
    agent == JStr(Jira) || agent == JStr(Filters) || agent == JStr(Confluence)
  }

  /** A normalised action names a known agent, keeps its name and carries `run` as the truthiness of the given value. */
  lemma NormalizeSpec(a: Obj)
    ensures Normalize(a).Some? <==> KnownAgent(Get(a, "agent"))
    ensures Normalize(a).Some? ==>
      Normalize(a).value["agent"] == Get(a, "agent") && Normalize(a).value["run"] == JBool(Truthy(Get(a, "run")))
  {
  }

  /** The defaults: unset JiraDrafts limits are None, unset labels and sections get their default lists. */
  lemma NormalizeDefaults(a: Obj)
    ensures Get(a, "agent") == JStr(Jira) ==>
      Normalize(a).value["max_tickets"] == Get(a, "max_tickets")
      && Normalize(a).value["min_severity"] == Get(a, "min_severity")
      && Normalize(a).value["min_confidence"] == Get(a, "min_confidence")
    ensures Get(a, "agent") == JStr(Filters) && "for_labels" !in a ==>
      Normalize(a).value["for_labels"] == JArr(DefaultLabels)
    ensures Get(a, "agent") == JStr(Confluence) && "include_sections" !in a ==>
      Normalize(a).value["include_sections"] == JArr(DefaultSections)
  {
  }

  /** Normalisation works action by action, so the output keeps the input order. */
  lemma {:induction false} NormalizeAppend(xs: seq<Json>, ys: seq<Json>)
    ensures NormalizeAll(xs + ys) == NormalizeAll(xs) + NormalizeAll(ys)
    decreases |ys|
  {
    if ys == [] {
      assert xs + ys == xs;
    } else {
      var p := ys[..|ys| - 1];
      NormalizeAppend(xs, p);
      assert (xs + ys)[..|xs + ys| - 1] == xs + p;
      assert (xs + ys)[|xs + ys| - 1] == ys[|ys| - 1];
    }
  }

  /** Every output action is the normalisation of an input action with a known agent; there are never more outputs than inputs. */
  lemma {:induction false} NormalizedFromInput(actions: seq<Json>)
    ensures |NormalizeAll(actions)| <= |actions|
    ensures FromInput(actions)
    decreases |actions|
  {
    if actions != [] {
      NormalizedFromInput(actions[..|actions| - 1]);
      FromInputStep(actions);
    }
  }

  /** Each output action names a known agent and is the normalisation of some input action. */
  predicate FromInput(actions: seq<Json>) {
    forall n :: n in NormalizeAll(actions) ==>
      KnownAgent(Get(n, "agent")) && exists j :: 0 <= j < |actions| && Normalize(AsObj(actions[j])) == Some(n)
  }

  /** The last input action adds at most its own normalisation. */
  lemma FromInputStep(actions: seq<Json>)
    requires actions != []
    requires |NormalizeAll(actions[..|actions| - 1])| <= |actions| - 1
    requires FromInput(actions[..|actions| - 1])
    ensures |NormalizeAll(actions)| <= |actions|
    ensures FromInput(actions)
  {
    var m := |actions| - 1;
    var p := actions[..m];
    var last := Normalize(AsObj(actions[m]));
    assert NormalizeAll(actions) == NormalizeAll(p) + (if last.Some? then [last.value] else []);
    forall n | n in NormalizeAll(actions)
      ensures KnownAgent(Get(n, "agent")) && exists j :: 0 <= j < |actions| && Normalize(AsObj(actions[j])) == Some(n)
    {
      if n in NormalizeAll(p) {
        var j :| 0 <= j < |p| && Normalize(AsObj(p[j])) == Some(n);
        assert actions[j] == p[j];
      } else {
        NormalizeSpec(AsObj(actions[m]));
      }
    }
  }

  /** Every input action with a known agent is normalised into the output. */
  lemma {:induction false} KnownAgentsKept(actions: seq<Json>)
    ensures forall j :: 0 <= j < |actions| && KnownAgent(Get(AsObj(actions[j]), "agent")) ==>
      Normalize(AsObj(actions[j])).value in NormalizeAll(actions)
    decreases |actions|
  {
    if actions != [] {
      var m := |actions| - 1;
      var p := actions[..m];
      KnownAgentsKept(p);
      forall j | 0 <= j < |actions| && KnownAgent(Get(AsObj(actions[j]), "agent"))
        ensures Normalize(AsObj(actions[j])).value in NormalizeAll(actions)
      {
        if j < m {
          assert actions[j] == p[j];
        }
      }
    }
  }

  /** A reply without a non-empty `actions` list gives the default plan: the three agents, none run, sections ["summary"]. */
  lemma NoActionsRunsNothing(out: Json)
    requires var actions := Get(AsObj(out), "actions"); !actions.JArr? || actions.items == []
    ensures Get(PlanOf(out), "actions") == JArr([
      JObj(map["agent" := JStr(Jira), "run" := JBool(false),
               "max_tickets" := JNull, "min_severity" := JNull, "min_confidence" := JNull]),
      JObj(map["agent" := JStr(Filters), "run" := JBool(false),
               "for_labels" := JArr(DefaultLabels), "min_count" := JNull]),
      JObj(map["agent" := JStr(Confluence), "run" := JBool(false),
               "include_sections" := JArr([JStr("summary")])])])
  {
    assert RawActions(AsObj(out)) == DefaultActions;
    DefaultsKept();
  }

  /** The default actions come out of normalisation as they went in. */
  lemma DefaultsKept()
    ensures ObjsToJson(NormalizeAll(DefaultActions)) == DefaultActions
  {
    DefaultNormalized();
    var d := DefaultActions;
    var r := ObjsToJson(NormalizeAll(d));
    assert |r| == 3;
    assert r[0] == d[0] && r[1] == d[1] && r[2] == d[2];
  }

  lemma DefaultNormalized()
    ensures NormalizeAll(DefaultActions) == [AsObj(DefaultActions[0]), AsObj(DefaultActions[1]), AsObj(DefaultActions[2])]
  {
    var d := DefaultActions;
    assert Normalize(AsObj(d[0])) == Some(AsObj(d[0]));
    assert Normalize(AsObj(d[1])) == Some(AsObj(d[1]));
    assert Normalize(AsObj(d[2])) == Some(AsObj(d[2]));
    assert d[..1][..0] == [] && d[..2][..1] == d[..1] && d[..3][..2] == d[..2] && d[..3] == d;
    assert NormalizeAll(d[..1]) == [AsObj(d[0])];
    assert NormalizeAll(d[..2]) == [AsObj(d[0]), AsObj(d[1])];
  }

  /** The reason and global policy default to "no reason provided" and {}. */
  lemma PlanDefaults(out: Json)
    ensures "reason" !in AsObj(out) ==> Get(PlanOf(out), "reason") == JStr("no reason provided")
    ensures "global_policy" !in AsObj(out) ==> Get(PlanOf(out), "global_policy") == JObj(map[])
  {
  }
}
