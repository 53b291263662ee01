/**
 * `SimpleToolSelector`: the per-agent metadata cache, the model call with its
 * keyword fallback, and the entry points that combine them.
 */
module Selector {
  import opened Wrappers
  import opened Metadata
  import opened Ranking

  /** One conversation history entry; only passed on to the prompt. */
  type Message = map<string, string>

  /** Everything the prompt sent to the model is built from, and the model name. */
  datatype LlmRequest = LlmRequest(
    model: string,
    userMessage: string,
    history: seq<Message>,
    availableTools: seq<Record>,
    maxTools: int,
    minTools: int)

  /** What `_select_with_llm` does: return the parsed selections, or raise. */
  type LlmOutcome = Result<seq<ToolSelection>, string>

  /** An agent: its identity (what `id(agent)` gives) and its `tools` list. */
  datatype Agent<K> = Agent(key: K, tools: seq<ToolObject>)

  /** The `min_tools` that `filter_agent_tools` leaves at its default. */
  const DefaultMinTools := 3

  /** The selections returned for a model outcome: the model's own, or the fallback. */
  function Outcome(o: LlmOutcome, msg: string, tools: seq<Record>, maxTools: int): seq<ToolSelection> {
    match o
    case Success(response) => response
    case Failure(_) => Fallback(msg, tools, maxTools)
  }

  /** Appends `tag`-tagged copies of `records` to `metadata`, one `append` at a time. */
  method AppendTagged(metadata: seq<Record>, records: seq<Record>, tag: string) returns (result: seq<Record>)
    ensures result == metadata + TagAll(records, tag)
  {
    result := metadata;
    var j := 0;
    while j < |records|
      invariant 0 <= j <= |records|
      invariant result == metadata + TagAll(records[..j], tag)
    {
      result := result + [Tag(records[j], tag)];
      j := j + 1;
    }
    assert records[..j] == records;
  }

  /**
   * One pass of the loop over `agent.tools`: the `isinstance` tests in the
   * source's order, appending what the first matching branch yields.
   */
  method AppendToolEntries(metadata: seq<Record>, tool: ToolObject) returns (result: seq<Record>)
    ensures result == metadata + EntriesOf(tool)
  {
    if tool.mcpFunctions.Some? {
      result := AppendTagged(metadata, tool.mcpFunctions.value, McpLabel);
    } else if tool.toolkit.Some? {
      result := AppendTagged(metadata, tool.toolkit.value.members, tool.toolkit.value.name);
    } else if tool.agnoFunction.Some? {
      result := metadata + [Tag(tool.agnoFunction.value, DefaultLabel)];
    } else if tool.callable.Some? {
      result := metadata + [Tag(tool.callable.value, DefaultLabel)];
    } else {
      result := metadata;
    }
  }

  class SimpleToolSelector<K(==)> {
    /** The Gemini client, as the outcome it gives for each request. */
    const client: LlmRequest -> LlmOutcome
    const model: string
    /** `_tool_cache`: the metadata list built for each agent. */
    var toolCache: map<K, seq<Record>>

    constructor (client: LlmRequest -> LlmOutcome, model: string)
      ensures this.client == client && this.model == model
      ensures toolCache == map[]
    {
      this.client := client;
      this.model := model;
      toolCache := map[];
    }

    /**
     * `extract_tools_metadata`: a cached agent gets its stored list back and
     * the cache is unchanged; otherwise the list is built tool by tool and
     * stored under the agent's key, which is the only change to the cache.
     */
    method ExtractToolsMetadata(agent: Agent<K>) returns (metadata: seq<Record>)
      modifies this`toolCache
      ensures agent.key in old(toolCache) ==>
        metadata == old(toolCache)[agent.key] && toolCache == old(toolCache)
      ensures agent.key !in old(toolCache) ==>
        && metadata == BuildMetadata(agent.tools)
        && toolCache == old(toolCache)[agent.key := metadata]
        && toolCache.Keys == old(toolCache).Keys + {agent.key}
    {
      var cacheKey := agent.key;
      if cacheKey in toolCache {
        return toolCache[cacheKey];
      }
      metadata := [];
      var i := 0;
      while i < |agent.tools|
        invariant 0 <= i <= |agent.tools|
        invariant metadata == BuildMetadata(agent.tools[..i])
        invariant toolCache == old(toolCache)
      {
        var tool := agent.tools[i];
        metadata := AppendToolEntries(metadata, tool);
        assert agent.tools[..i + 1] == agent.tools[..i] + [tool];
        BuildMetadataSnoc(agent.tools[..i], tool);
        i := i + 1;
      }
      assert agent.tools[..i] == agent.tools;
      toolCache := toolCache[cacheKey := metadata];
    }

    /** `clear_cache`: afterwards no agent is cached, so the next
        `ExtractToolsMetadata` for any agent rebuilds its list. */
    method ClearCache()
      modifies this`toolCache
      ensures toolCache == map[]
    {
      toolCache := map[];
    }

    /**
     * `select_relevant_tools`: the model's selections when the call returns,
     * exactly the keyword fallback when it raises.
     */
    method SelectRelevantTools(userMessage: string, history: seq<Message>, availableTools: seq<Record>,
                               maxTools: int, minTools: int)
      returns (selected: seq<ToolSelection>)
      ensures var o := client(LlmRequest(model, userMessage, history, availableTools, maxTools, minTools));
        && (o.Success? ==> selected == o.value)
        && (o.Failure? ==> selected == Fallback(userMessage, availableTools, maxTools))
    {
      var outcome := client(LlmRequest(model, userMessage, history, availableTools, maxTools, minTools));
      match outcome
      case Success(response) =>
        selected := response;
      case Failure(_) =>
        selected := FallbackSelection(userMessage, availableTools, maxTools);
    }

    /**
     * `filter_agent_tools`: an absent history is the empty list; the agent's
     * metadata comes from the cache (stored there on a miss) and is handed to
     * `SelectRelevantTools` with the default `min_tools`.
     */
    method FilterAgentTools(agent: Agent<K>, userMessage: string, history: Option<seq<Message>>, maxTools: int)
      returns (selected: seq<ToolSelection>)
      modifies this`toolCache
      ensures var tools := if agent.key in old(toolCache) then old(toolCache)[agent.key] else BuildMetadata(agent.tools);
        && toolCache == old(toolCache)[agent.key := tools]
        && selected == Outcome(client(LlmRequest(model, userMessage, history.GetOr([]), tools, maxTools, DefaultMinTools)),
                               userMessage, tools, maxTools)
    {
      var h := if history.None? then [] else history.value;
      var availableTools := ExtractToolsMetadata(agent);
      selected := SelectRelevantTools(userMessage, h, availableTools, maxTools, DefaultMinTools);
    }
  }

  /**
   * `select_tools_for_query`: a fresh selector has an empty cache, so the
   * agent's metadata is always built from its current tools.
   */
  method SelectToolsForQuery<K(==)>(client: LlmRequest -> LlmOutcome, agent: Agent<K>, userMessage: string,
                                    history: Option<seq<Message>>, maxTools: int, model: string)
    returns (selected: seq<ToolSelection>)
    ensures var tools := BuildMetadata(agent.tools);
      selected == Outcome(client(LlmRequest(model, userMessage, history.GetOr([]), tools, maxTools, DefaultMinTools)),
                          userMessage, tools, maxTools)
  {
    var selector := new SimpleToolSelector<K>(client, model);
    selected := selector.FilterAgentTools(agent, userMessage, history, maxTools);
  }
}
