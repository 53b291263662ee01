# Tool selector model

A Dafny model of `SimpleToolSelector`, the helper that trims an agent's tool
list before the list is sent to a language model. The same module appears
twice in the repository, byte for byte: `agents/simple_tool_filter.py` and
`context_engineering/simple_tool_selector.py`. The model covers three parts:

- **The keyword fallback ranker** (`_fallback_selection`), in `ranking.dfy`.
  The user message is lower-cased and split into a set of words. Each tool's
  score is the number of those words that occur in its lower-cased
  `"name docstring"` text. The tools are stable-sorted by score, highest
  first, and the first `max_tools` are kept. Each kept tool becomes a
  `ToolSelection` with relevance `min(2 * score, 10)`. The method keeps the
  source's nested scoring loops. It is proved equal to the function
  `Fallback`, and the lemmas give that function's properties.
- **The per-agent metadata cache** (`extract_tools_metadata`, `clear_cache`),
  in `metadata.dfy` and `selector.dfy`. The class `SimpleToolSelector` has a
  `map` field `toolCache`, keyed by an abstract agent key. On a miss the
  metadata list is built tool by tool, dispatching on the `isinstance` tests
  in the source's order (MCP, then Toolkit, then Function, then Callable,
  else skipped). A tool is a record of the tests it passes, since the Python
  classes overlap.
- **The fallback-on-failure wrapper** (`select_relevant_tools`) and the entry
  points `filter_agent_tools` and `select_tools_for_query`. The Gemini client
  is a function from the request to a `Result`. A `Failure` stands for a
  raised exception and yields exactly the keyword fallback.

`text.dfy` models the string built-ins the ranker uses: `str.lower()`,
`str.split()` with no argument, and the substring test `word in text`.
`wrappers.dfy` holds `Option` and `Result`.

The cache is an unbounded dictionary memo. There is one model call with no
retry, and a keyword fallback when that call raises.

Edge cases as the code has them:
- A docstring of `None` renders as `"None"` in the f-string, so it can match
  the word `none`. A missing docstring key renders as `""`.
- A negative `max_tools` slices as Python does: `s[:-k]` drops the last `k`.
- A cache hit returns the stored list even if the agent's tools have changed
  since it was stored.

## Model

| member | source | states |
|---|---|---|
| `Text.IsSpace` | agents/simple_tool_filter.py:141 | the ASCII characters `str.split()` treats as whitespace: tab, newline, vertical tab, form feed, carriage return, the separators 28-31 and space |
| `Text.Lower` | agents/simple_tool_filter.py:141 | `str.lower()` on ASCII: each upper-case letter becomes its lower-case letter, every other character is kept, the length is unchanged |
| `Text.Words` | agents/simple_tool_filter.py:141 | `str.split()` with no separator: the maximal runs of non-whitespace characters, in order |
| `Text.Contains` | agents/simple_tool_filter.py:149 | `word in tool_text`: the word is a prefix of the text or of one of its suffixes |
| `Text.ContainsIsSubstring` | agents/simple_tool_filter.py:149 | `word in tool_text` holds iff some window of the text equals the word |
| `Text.WordsEmptyIff` | agents/simple_tool_filter.py:141 | `split()` gives no words iff the string is empty or all whitespace |
| `Text.WordsWellFormed` | agents/simple_tool_filter.py:141 | every word from `split()` is non-empty and has no whitespace |
| `Text.WordsJoin` | agents/simple_tool_filter.py:141 | splitting `a + c + b`, where `c` is whitespace, gives the words of `a` followed by the words of `b` |
| `Text.WordsOfWord` | agents/simple_tool_filter.py:141 | a non-empty string without whitespace splits into exactly one word, itself; with `WordsJoin` and `WordsEmptyIff` this fixes the split of every string |
| `Text.WordsNoUpper` | agents/simple_tool_filter.py:141 | the words of a lower-cased message are themselves lower-case |
| `Metadata.KindOf` | agents/simple_tool_filter.py:107-125 | the branch a tool takes: the first of the `isinstance` tests for `MultiMCPTools`, `Toolkit`, `Function`, `Callable` that it passes, else none |
| `Metadata.Tag` | agents/simple_tool_filter.py:110-123 | merging `{"toolkit": tag}` into a record: the tag replaces any toolkit value, the name and docstring are kept |
| `Metadata.TagAll` | agents/simple_tool_filter.py:108-117 | the tagged copies of a list of records, one per record, in order |
| `Metadata.EntriesOf` | agents/simple_tool_filter.py:106-125 | what one tool appends: its MCP functions tagged "MCP", its Toolkit members tagged with the toolkit's name, its Function or Callable record tagged "default", or nothing |
| `Metadata.BuildMetadata` | agents/simple_tool_filter.py:105-125 | the list built for an agent: the entries of each tool, in tool order |
| `Metadata.BuildMetadataAppend` | agents/simple_tool_filter.py:105-125 | metadata entries appear in tool order: the list for `xs + ys` is the list for `xs` followed by the list for `ys` |
| `Metadata.BuildMetadataCount` | context_engineering/simple_tool_selector.py:106-125 | the entry count is the function count of each MCP tool, plus the member count of each Toolkit, plus one per Function or Callable tool |
| `Metadata.EntriesOfTagged` | agents/simple_tool_filter.py:107-123 | MCP functions are tagged "MCP" even on an object that is also a Toolkit; Toolkit members get the toolkit's name; a Function tool yields its own `to_dict()` record (even when it is also a Callable) and a Callable its own metadata record, each tagged "default"; every other field is the source record's |
| `Metadata.UnknownContributesNothing` | agents/simple_tool_filter.py:124-125 | a tool that passes no `isinstance` test adds no entry |
| `Metadata.BuildMetadataAllTagged` | agents/simple_tool_filter.py:105-125 | every entry of a built list carries a toolkit tag |
| `Ranking.RelevanceInRange` | agents/simple_tool_filter.py:53-54 | the field constraint `ge=0, le=10` on `ToolSelection.relevance` |
| `Ranking.MessageWords` | agents/simple_tool_filter.py:141 | `set(user_message.lower().split())` |
| `Ranking.DocText` | agents/simple_tool_filter.py:146 | how `tool.get('docstring', '')` renders in the f-string: `''` when the key is missing, `"None"` for a `None` value |
| `Ranking.ToolText` | agents/simple_tool_filter.py:146 | the lower-cased `"name docstring"` text, with `''` for a missing name |
| `Ranking.Score` | agents/simple_tool_filter.py:144-150 | the number of message words found in the tool text |
| `Ranking.ScoreAll` | agents/simple_tool_filter.py:144-152 | `scored_tools` before the sort: each tool with its score, in input order |
| `Ranking.InsertDesc` | agents/simple_tool_filter.py:155 | in a list sorted by descending score, inserts a scored tool after every element with a strictly higher score and before the rest |
| `Ranking.SortByScoreDesc` | agents/simple_tool_filter.py:155 | `scored_tools.sort(key=score, reverse=True)` as a stable insertion sort |
| `Ranking.Ranked` | agents/simple_tool_filter.py:152-155 | `scored_tools` after the in-place sort: the scored tools stable-sorted by score, highest first |
| `Ranking.Relevance` | agents/simple_tool_filter.py:162 | `min(score * 2, 10)` |
| `Ranking.Selection` | agents/simple_tool_filter.py:159-163 | the `ToolSelection` for one kept tool: its name or "unknown", its toolkit or "default", and its relevance |
| `Ranking.ToSelections` | agents/simple_tool_filter.py:158-165 | the list comprehension over the kept tools, in order |
| `Ranking.Fallback` | agents/simple_tool_filter.py:133-165 | what `_fallback_selection` returns: score, stable sort, slice to `max_tools`, convert |
| `Ranking.SliceTo` | agents/simple_tool_filter.py:156 | `s[:n]` is a prefix of `s`; it is all of `s` when `n >= len(s)`, has `n` elements for `0 <= n <= len(s)`, leaves exactly the last `-n` elements off for `-len(s) <= n < 0`, and is empty below that |
| `Ranking.FallbackSelection` | agents/simple_tool_filter.py:133-165 | the nested scoring loops, sort, slice and conversion return exactly `Fallback`; for `max_tools >= 0` the result has `min(len(available_tools), max_tools)` entries, each with relevance in 0..10 |
| `Ranking.ScoreCountsOccurringWords` | agents/simple_tool_filter.py:144-150 | a score is the number of distinct message words that occur as substrings of the tool text |
| `Ranking.ScoreAtMostWordCount` | context_engineering/simple_tool_selector.py:141-150 | a score never exceeds the number of distinct message words |
| `Ranking.BlankMessageScoresZero` | context_engineering/simple_tool_selector.py:141-150 | an empty or all-whitespace message has no words, and every tool scores 0 |
| `Ranking.RepeatedWordNoGain` | agents/simple_tool_filter.py:141-150 | appending a word the message already has adds it to the split but not to the word set, so no score changes |
| `Ranking.SortPermutes` | agents/simple_tool_filter.py:155 | the sort returns a permutation of `scored_tools` |
| `Ranking.SortIsSorted` | agents/simple_tool_filter.py:155 | the sorted list has non-increasing scores |
| `Ranking.SortIsStable` | agents/simple_tool_filter.py:155 | for each score, the tools with that score keep their input order (Python's sort is stable under `reverse=True`) |
| `Ranking.RankedIsStableSort` | agents/simple_tool_filter.py:152-155 | the ranked list is the scored input list, permuted, non-increasing by score, with equal scores in input order |
| `Ranking.FallbackLength` | agents/simple_tool_filter.py:156 | the fallback returns `min(len(available_tools), max_tools)` selections for `max_tools >= 0`, Python's slice length otherwise, never more than the number of tools |
| `Ranking.FallbackFields` | agents/simple_tool_filter.py:158-165 | selection `i` comes from ranked tool `i`: its name or "unknown", its toolkit or "default", relevance `min(2 * score, 10)` in 0..10 |
| `Ranking.FallbackRelevance` | context_engineering/simple_tool_selector.py:155-165 | every relevance lies in the 0..10 range declared on `ToolSelection`, and relevances do not increase along the list |
| `Ranking.FallbackTopK` | agents/simple_tool_filter.py:155-156 | kept and dropped tools together are exactly the scored input, and no dropped tool scores higher than a kept one |
| `Ranking.BlankMessageKeepsInputOrder` | agents/simple_tool_filter.py:141-162 | with an empty or blank message every relevance is 0 and the ranking is the input order |
| `Selector.Outcome` | agents/simple_tool_filter.py:229-234 | the result of `select_relevant_tools` for a model outcome: the model's selections when it returns, the keyword fallback when it raises |
| `Selector.SimpleToolSelector.constructor` | agents/simple_tool_filter.py:72-74 | a new selector holds the client and model and has an empty cache |
| `Selector.AppendTagged` | agents/simple_tool_filter.py:107-117 | the inner `append` loop adds one copy of each MCP function or toolkit member, in order, with the given toolkit tag merged in |
| `Selector.AppendToolEntries` | agents/simple_tool_filter.py:106-125 | one pass of the tool loop appends exactly the entries the first matching `isinstance` branch yields (MCP, Toolkit, Function, Callable), or nothing for an unknown tool |
| `Selector.SimpleToolSelector.ExtractToolsMetadata` | agents/simple_tool_filter.py:100-128 | a hit returns the stored list and leaves the cache unchanged; a miss builds `BuildMetadata(agent.tools)` without touching the cache, then stores it under the agent's key, adding exactly that key and changing no other entry |
| `Selector.SimpleToolSelector.ClearCache` | context_engineering/simple_tool_selector.py:130-131 | afterwards the cache holds no keys, so the next extraction for any agent is a miss and rebuilds |
| `Selector.SimpleToolSelector.SelectRelevantTools` | context_engineering/simple_tool_selector.py:229-234 | if the model call returns, its selections are returned; if it raises, the result is exactly `Fallback(user_message, available_tools, max_tools)` |
| `Selector.SimpleToolSelector.FilterAgentTools` | context_engineering/simple_tool_selector.py:255-264 | an absent history becomes `[]`; the agent's metadata comes from the cache, stored on a miss, and is passed on with `min_tools` 3 |
| `Selector.SelectToolsForQuery` | agents/simple_tool_filter.py:267-275 | a fresh selector always builds the agent's metadata from its current tools, then filters as above |

## Left out

- `_select_with_llm` and the Gemini `generate_content` call are foreign network calls. The client is a function from the request to a `Result`. So two calls with the same request get the same outcome, which the real service need not give.
- The prompt text (`dedent` f-string and system prompt) is inert. `LlmRequest` carries the values it is built from.
- `_get_function_metadata` uses Python reflection, and `to_dict()` is agno library code. Their results are given records: a name, a docstring field and a toolkit field. The keyword fallback reads only those three keys, and the model's request carries only those. The prompt also prints every other key of each dictionary, such as `parameters`, `signature` and the `to_dict()` fields. So the modelled client cannot tell apart tool lists that differ only in those keys.
- `id(agent)` is an abstract key type. Reuse of an id after garbage collection is not modelled. A new agent that gets an old id is a cache hit, like any key already present.
- The cache returns the stored list object itself. Aliasing (a caller mutating that list, and so the cache entry) is not modelled. Lists are values here.
- loguru logging, the `GOOGLE_API_KEY` environment lookup and the constructor's `assert api_key` are I/O and configuration.
- `str.lower()` and `str.split()` are modelled on ASCII only. Unicode case mapping and non-ASCII whitespace are not modelled.
- Pydantic validation is not modelled. Only the 0..10 relevance bound on `ToolSelection` is modelled, as the predicate `RelevanceInRange`. The model's own selections are returned as the client gives them, like `result.parsed`. A `None` parse, which `select_relevant_tools` returns as it is, is not modelled: the client's success value is always a list.
- An exception raised while building the metadata is not modelled. For example, `inspect.signature` raises on some built-in callables, and a `to_dict()` call can raise. Such an exception escapes `extract_tools_metadata` and `filter_agent_tools`, because it happens outside the `try` in `select_relevant_tools`, and the agent is then not cached. `BuildMetadata` cannot fail.
- A name or toolkit value that is present but not a string is not modelled. Pydantic would reject it when the `ToolSelection` is built.
- Python default arguments (`max_tools=50`, `min_tools=3`, the default model name) are explicit parameters. `filter_agent_tools` passes `min_tools` 3, as `DefaultMinTools`.
- The choice of word in `for word in message_words` follows set iteration order, which is arbitrary. The loop picks an arbitrary remaining word, and its result does not depend on the choice.
