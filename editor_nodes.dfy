/** The editor's execution nodes (`node.tsx`): `handleSubmit` merges the
    submitted dialog values into one node's data, and `description` is the
    summary line shown on the node. */
module EditorNodes {
  import opened Wrappers
  import opened Strings
  import opened Values
  import Dialogs

  /** A react-flow node: its id, its `data` object, and every other field
      (type, position, ...) kept as one value. */
  datatype FlowNode = FlowNode(id: string, rest: Value, data: map<string, Value>)

  /** `{ ...data, ...values }`: every key of either, the submitted value winning. */
  function MergeData(data: map<string, Value>, values: map<string, Value>): (r: map<string, Value>)
    ensures r.Keys == data.Keys + values.Keys
    ensures forall k :: k in values ==> r[k] == values[k]
    ensures forall k :: k in data && k !in values ==> r[k] == data[k]
  {
    data + values
  }

  /** `nodes.map(node => node.id === id ? { ...node, data: { ...node.data, ...values } } : node)` */
  function UpdateNodeData(nodes: seq<FlowNode>, id: string, values: map<string, Value>): (r: seq<FlowNode>)
    ensures |r| == |nodes|
    // Only the nodes with this id change, and only their data, which becomes the merge.
    ensures forall i :: 0 <= i < |nodes| && nodes[i].id != id ==> r[i] == nodes[i]
    ensures forall i :: 0 <= i < |nodes| && nodes[i].id == id ==>
              r[i] == FlowNode(nodes[i].id, nodes[i].rest, MergeData(nodes[i].data, values))
  {
    if |nodes| == 0 then []
    else
      var head := if nodes[0].id == id then FlowNode(nodes[0].id, nodes[0].rest, MergeData(nodes[0].data, values)) else nodes[0];
      [head] + UpdateNodeData(nodes[1..], id, values)
  }

  /** The order and the ids of the list are unchanged. */
  lemma IdsPreserved(nodes: seq<FlowNode>, id: string, values: map<string, Value>)
    ensures var r := UpdateNodeData(nodes, id, values);
      forall i :: 0 <= i < |nodes| ==> r[i].id == nodes[i].id
  {
  }

  /** Submitting the same values twice is the same as submitting them once. */
  lemma UpdateIdempotent(nodes: seq<FlowNode>, id: string, values: map<string, Value>)
    ensures UpdateNodeData(UpdateNodeData(nodes, id, values), id, values) == UpdateNodeData(nodes, id, values)
  {
    var once := UpdateNodeData(nodes, id, values);
    var twice := UpdateNodeData(once, id, values);
    forall i | 0 <= i < |nodes|
      ensures twice[i] == once[i]
    {
      if nodes[i].id == id {
        assert MergeData(MergeData(nodes[i].data, values), values) == MergeData(nodes[i].data, values);
      }
    }
  }

  /** A string field of the node data, `nodeData?.key`; a missing key reads as absent. */
  function StringField(data: map<string, Value>, key: string): (r: Option<string>)
    ensures r.Some? <==> key in data && data[key].Str?
    ensures r.Some? ==> data[key] == Str(r.value)
  {
    if key in data && data[key].Str? then Some(data[key].s) else None
  }

  const NotConfigured := "Not Configured"

  /** The ellipsis appended after the prompt or the content. */
  const Ellipsis := "..."

  /** The AI nodes' description:
      `userPrompt ? `${model || AVAILABLE_MODELS[0]}: ${userPrompt.slice(0, 50)}...` : "Not Configured"`. */
  function AiDescription(model: Option<string>, userPrompt: Option<string>, models: seq<string>): (r: string)
    requires |models| > 0
    ensures !Truthy(userPrompt) ==> r == NotConfigured
    // The model leads, then at most 50 characters of the prompt, then always "...".
    ensures Truthy(userPrompt) ==>
              var m := OrElse(model, models[0]);
              && |m| + 5 <= |r| <= |m| + 55
              && r[..|m| + 2] == m + ": "
              && r[|r| - 3..] == Ellipsis
              && |r| - |m| - 5 == (if |userPrompt.value| <= 50 then |userPrompt.value| else 50)
              && r[|m| + 2..|r| - 3] == userPrompt.value[..|r| - |m| - 5]
    ensures Truthy(userPrompt) && |userPrompt.value| <= 50 ==> r == OrElse(model, models[0]) + ": " + userPrompt.value + Ellipsis
  {
    if Truthy(userPrompt) then OrElse(model, models[0]) + ": " + Take(userPrompt.value, 50) + Ellipsis
    else NotConfigured
  }

  /** The HTTP node's description: `endpoint ? `${method || "GET"}: ${endpoint}` : "Not Configured"`,
      with the endpoint in full. */
  function HttpDescription(httpMethod: Option<string>, endpoint: Option<string>): (r: string)
    ensures !Truthy(endpoint) ==> r == NotConfigured
    ensures Truthy(endpoint) ==>
              var m := OrElse(httpMethod, "GET");
              |r| == |m| + 2 + |endpoint.value| && r[..|m| + 2] == m + ": " && r[|m| + 2..] == endpoint.value
  {
    if Truthy(endpoint) then OrElse(httpMethod, "GET") + ": " + endpoint.value else NotConfigured
  }

  /** The Discord node's description: `content ? `Send: ${content.slice(0, 50)}...` : "Not Configured"`. */
  function DiscordDescription(content: Option<string>): (r: string)
    ensures !Truthy(content) ==> r == NotConfigured
    ensures Truthy(content) ==>
              && 9 <= |r| <= 59
              && r[..6] == "Send: " && r[|r| - 3..] == Ellipsis
              && |r| - 9 == (if |content.value| <= 50 then |content.value| else 50)
              && r[6..|r| - 3] == content.value[..|r| - 9]
  {
    if Truthy(content) then "Send: " + Take(content.value, 50) + Ellipsis else NotConfigured
  }

  /** After a Gemini dialog submit, the node describes the submitted model and prompt. */
  lemma DescriptionAfterSubmit(nodes: seq<FlowNode>, id: string, i: nat, model: string, prompt: string)
    requires i < |nodes| && nodes[i].id == id && model != "" && prompt != ""
    ensures var values := map["model" := Str(model), "userPrompt" := Str(prompt)];
      var data := UpdateNodeData(nodes, id, values)[i].data;
      AiDescription(StringField(data, "model"), StringField(data, "userPrompt"), Dialogs.GeminiModels)
        == model + ": " + Take(prompt, 50) + Ellipsis
  {
  }
}
