/**
 * The language-model usage counters (utils/metrics.py): a record of prompt
 * tokens, completion tokens and calls, its derived total, its JSON form as
 * the run metadata embeds it, and the reset of the shared instance at the
 * start of a run.
 */
module Metrics {
  import opened JsonValues

  /** The counters; `LLM_USAGE` is one shared instance of this class. */
  class LlmUsage {
    var promptTokens: int
    var completionTokens: int
    var calls: int

    /** A new record starts with every counter at zero. */
    constructor ()
      ensures promptTokens == 0 && completionTokens == 0 && calls == 0
    {
      promptTokens := 0;
      completionTokens := 0;
      calls := 0;
    }

    /** The `total_tokens` property. */
    function TotalTokens(): int
      reads this
    {
      promptTokens + completionTokens
    }

    /**
     * `to_dict()`: the three counters under their field names, plus
     * `total_tokens`, which is always the sum of the two token counts it
     * holds next to it.
     */
    function ToDict(): (d: Obj)
      reads this
      ensures d.Keys == {"prompt_tokens", "completion_tokens", "calls", "total_tokens"}
      ensures d["prompt_tokens"] == JInt(promptTokens) && d["completion_tokens"] == JInt(completionTokens)
      ensures d["calls"] == JInt(calls)
      ensures d["total_tokens"] == JInt(d["prompt_tokens"].i + d["completion_tokens"].i)
    {
      map["prompt_tokens" := JInt(promptTokens), "completion_tokens" := JInt(completionTokens),
          "calls" := JInt(calls), "total_tokens" := JInt(TotalTokens())]
    }
  }

  /** `reset_llm_usage()`: the shared record's three counters go back to zero, so its dict reads all zeros. */
  method ResetLlmUsage(usage: LlmUsage)
    modifies usage
    ensures usage.promptTokens == 0 && usage.completionTokens == 0 && usage.calls == 0
    ensures usage.ToDict() == map["prompt_tokens" := JInt(0), "completion_tokens" := JInt(0),
                                  "calls" := JInt(0), "total_tokens" := JInt(0)]
  {
    usage.promptTokens := 0;
    usage.completionTokens := 0;
    usage.calls := 0;
  }
}
