/**
 * The tool metadata that `extract_tools_metadata` builds for an agent.
 *
 * Each entry is a metadata record (the dictionary `to_dict()` or
 * `_get_function_metadata` yields, reduced to the fields the selector reads)
 * with a `toolkit` tag merged into it.
 */
module Metadata {
  import opened Wrappers

  /** The `docstring` field of a record: absent, Python's `None`, or a string. */
  datatype DocField = DocMissing | DocNone | Doc(text: string)

  /**
   * A tool metadata dictionary. `name` and `toolkit` are absent (`None`) when
   * the dictionary has no such key; no other key is read by the selector.
   */
  datatype Record = Record(name: Option<string>, docstring: DocField, toolkit: Option<string>)

  /** A Toolkit object: its `name` and the metadata of each member of `tools`. */
  datatype ToolkitView = ToolkitView(name: string, members: seq<Record>)

  /**
   * One element of `agent.tools`, described by the `isinstance` tests it
   * passes. Python classes overlap (a `MultiMCPTools` is also a `Toolkit`),
   * so an object may pass several; each facet holds what the matching branch
   * reads:
   * - `mcpFunctions`: for a `MultiMCPTools`, `fn.to_dict()` of each value of `tool.functions`
   * - `toolkit`: for a `Toolkit`, its name and `_get_function_metadata` of each member
   * - `agnoFunction`: for a `Function`, `tool.to_dict()`
   * - `callable`: for a `Callable`, `_get_function_metadata(tool)`
   */
  datatype ToolObject = ToolObject(
    mcpFunctions: Option<seq<Record>>,
    toolkit: Option<ToolkitView>,
    agnoFunction: Option<Record>,
    callable: Option<Record>)

  /** The branch of the dispatch a tool takes. */
  datatype Kind = MCP | ToolkitKind | FunctionKind | CallableKind | Unknown

  const McpLabel := "MCP"
  const DefaultLabel := "default"

  /** The first `isinstance` test, in the source's order, that the tool passes. */
  function KindOf(t: ToolObject): Kind {
    if t.mcpFunctions.Some? then MCP
    else if t.toolkit.Some? then ToolkitKind
    else if t.agnoFunction.Some? then FunctionKind
    else if t.callable.Some? then CallableKind
    else Unknown
  }

  /** `record | {"toolkit": tag}`: the tag replaces any toolkit already there. */
  function Tag(r: Record, tag: string): (t: Record)
    ensures t.name == r.name && t.docstring == r.docstring
    ensures t.toolkit == Some(tag)
  {
    r.(toolkit := Some(tag))
  }

  function TagAll(rs: seq<Record>, tag: string): (ts: seq<Record>)
    ensures |ts| == |rs|
    ensures forall i :: 0 <= i < |rs| ==> ts[i] == Tag(rs[i], tag)
  {
    seq(|rs|, i requires 0 <= i < |rs| => Tag(rs[i], tag))
  }

  /** What one tool appends to the metadata list. */
  function EntriesOf(t: ToolObject): seq<Record> {
    match KindOf(t)
    case MCP => TagAll(t.mcpFunctions.value, McpLabel)
    case ToolkitKind => TagAll(t.toolkit.value.members, t.toolkit.value.name)
    case FunctionKind => [Tag(t.agnoFunction.value, DefaultLabel)]
    case CallableKind => [Tag(t.callable.value, DefaultLabel)]
    case Unknown => []
  }

  /** The metadata list built for a sequence of tools, one tool after another. */
  function BuildMetadata(tools: seq<ToolObject>): seq<Record>
    decreases |tools|
  {
    if tools == [] then []
    else EntriesOf(tools[0]) + BuildMetadata(tools[1..])
  }

  // ---------------------------------------------------------------------------
  // Reference definitions

  /** How many entries a tool of each kind contributes. */
  function EntryCount(t: ToolObject): nat {
    match KindOf(t)
    case MCP => |t.mcpFunctions.value|
    case ToolkitKind => |t.toolkit.value.members|
    case FunctionKind => 1
    case CallableKind => 1
    case Unknown => 0
  }

  function TotalEntryCount(tools: seq<ToolObject>): nat {
    if tools == [] then 0 else EntryCount(tools[0]) + TotalEntryCount(tools[1..])
  }

  /** The toolkit tag each kind of tool puts on its entries. */
  function LabelOf(t: ToolObject): Option<string> {
    match KindOf(t)
    case MCP => Some(McpLabel)
    case ToolkitKind => Some(t.toolkit.value.name)
    case FunctionKind => Some(DefaultLabel)
    case CallableKind => Some(DefaultLabel)
    case Unknown => None
  }

  // ---------------------------------------------------------------------------
  // Lemmas

  /**
   * The metadata of a concatenation of tool lists is the concatenation of
   * their metadata: entries appear in tool order.
   */
  lemma {:induction false} BuildMetadataAppend(xs: seq<ToolObject>, ys: seq<ToolObject>)
    ensures BuildMetadata(xs + ys) == BuildMetadata(xs) + BuildMetadata(ys)
    decreases |xs|
  {
    if xs == [] {
      assert xs + ys == ys;
    } else {
      assert (xs + ys)[0] == xs[0];
      assert (xs + ys)[1..] == xs[1..] + ys;
      BuildMetadataAppend(xs[1..], ys);
    }
  }

  /** Adding a tool at the end adds its entries at the end. */
  lemma BuildMetadataSnoc(xs: seq<ToolObject>, t: ToolObject)
    ensures BuildMetadata(xs + [t]) == BuildMetadata(xs) + EntriesOf(t)
  {
    BuildMetadataAppend(xs, [t]);
    assert [t][1..] == [];
  }

  /**
   * The entry count is the function count of each MCP tool, the member count
   * of each Toolkit, and one per Function or Callable.
   */
  lemma {:induction false} BuildMetadataCount(tools: seq<ToolObject>)
    ensures |BuildMetadata(tools)| == TotalEntryCount(tools)
    decreases |tools|
  {
    if tools != [] {
      BuildMetadataCount(tools[1..]);
    }
  }

  /**
   * Each entry is the record its tool supplies, with the toolkit tag of the
   * tool's kind: "MCP" for MCP functions (even on an object that is also a
   * Toolkit), the toolkit's name for its members, "default" for a Function or
   * a Callable.
   */
  lemma EntriesOfTagged(t: ToolObject)
    ensures |EntriesOf(t)| == EntryCount(t)
    ensures forall e :: e in EntriesOf(t) ==> LabelOf(t).Some? && e.toolkit == LabelOf(t)
    ensures t.mcpFunctions.Some? ==>
      forall i :: 0 <= i < |t.mcpFunctions.value| ==>
        EntriesOf(t)[i] == t.mcpFunctions.value[i].(toolkit := Some("MCP"))
    ensures t.mcpFunctions.None? && t.toolkit.Some? ==>
      forall i :: 0 <= i < |t.toolkit.value.members| ==>
        EntriesOf(t)[i] == t.toolkit.value.members[i].(toolkit := Some(t.toolkit.value.name))
    ensures KindOf(t) == FunctionKind ==> EntriesOf(t) == [t.agnoFunction.value.(toolkit := Some("default"))]
    ensures KindOf(t) == CallableKind ==> EntriesOf(t) == [t.callable.value.(toolkit := Some("default"))]
  {
  }

  /** A tool that passes none of the `isinstance` tests contributes nothing. */
  lemma UnknownContributesNothing(tools: seq<ToolObject>, t: ToolObject)
    requires KindOf(t) == Unknown
    ensures BuildMetadata(tools + [t]) == BuildMetadata(tools)
  {
    BuildMetadataSnoc(tools, t);
  }

  /** Every entry of the metadata list carries a toolkit tag. */
  lemma {:induction false} BuildMetadataAllTagged(tools: seq<ToolObject>)
    ensures forall e :: e in BuildMetadata(tools) ==> e.toolkit.Some?
    decreases |tools|
  {
    if tools != [] {
      BuildMetadataAllTagged(tools[1..]);
      EntriesOfTagged(tools[0]);
    }
  }
}
