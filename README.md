# Spectrum workflow engine, modelled in Dafny

Spectrum runs automation workflows. A workflow is a directed graph of typed
nodes: a trigger (manual, Google Form, Stripe payment, PayPal) followed by
execution nodes (HTTP request, Gemini, OpenAI, Anthropic, Discord, Slack).
This project models the parts of the system that decide things. The external
services stay uninterpreted: the database, the AI models, the webhooks, the
template engine, the status channel and the event bus.

- **Graph order** (`graph_order.dfy`, module `GraphOrder`) covers
  `topologicalSort`. It builds edges from the connections, adds a self-edge
  for every isolated node, calls the sorting library, removes duplicate ids,
  maps a "Cyclic" failure to "Workflow contains a cycle" and maps ids back to
  nodes.
  - The sorting library is a function parameter. `ToposortContract` states
    what it promises: an edge list with a cycle makes it throw a "Cyclic"
    error, and one without a cycle is sorted into the mentioned vertices with
    every non-self edge going forward.
  - The library is assumed to accept self-edges (see "Left out").
  - The method `TopologicalSort` is proved against the specification function
    `SortOutcome`.
- **Executor registries** (`registry.dfy`) model the total table of
  `src/features` and the partial app-tree table, which has three entries and
  whose `getExecutor` throws.
- **Node executors** each have a specification function `...Run` that returns
  a `Trace`. A trace is the ordered log of effects plus the outcome.
  - An effect is one of: a published status event, entering a named step, or
    calling a service.
  - The outcome is either the new context or the thrown error.
  - Each executor also has a method `Execute` on a `Runtime` object that
    appends the same effects to its log.
  - Services are function parameters of the `Services` datatype. They model
    credential lookup, template rendering, HTML-entity decoding, text
    generation, webhook posts and fetch. Each returns a value or raises.
- **Trigger executors** (`triggers.dfy`) pass the context through a single
  step.
- **Status subscriber** (`node_status.dfy`) models the `useNodeStatus`
  latest-message selection as a class whose `status` field the effect updates.
- **Webhook routes** (`webhooks.dfy`) model the three `POST` handlers: the
  workflowID check, the field mapping into `initialData`, the single dispatch,
  and the 400, 200 and 500 answers.
- **Dialogs and forms** model each `formSchema` as a validity predicate, the
  default-value fill, and the rule that a form submits only values its schema
  accepts. This covers:
  - the node config dialogs (`dialogs.dfy`);
  - the credential form (`credential_form.dfy`);
  - the account settings (`account_settings.dfy`);
  - the reset-password form (`reset_password.dfy`).
- **Editor nodes** (`editor_nodes.dfy`) model the `handleSubmit` list update
  and the description strings of `node.tsx`.
- **Executions list** (`executions_view.dfy`) models `formatStatus` and
  `getStatusIcon`.

Shared files:

- `wrappers.dfy`: `Option`, `Result`, and `Call`, which returns or raises.
- `strings.dfy`: JavaScript truthiness of an optional string, `||`, `??`,
  `slice`, `includes`, and ASCII case mapping.
- `values.dfy`: JSON-like values, the context, and property access that
  throws on `null` or `undefined`.
- `workflow.dfy`: node types, nodes and connections.
- `execution.dfy`: events, effects, traces and the `Runtime` log.
- `ai_text.dfy`: the system-prompt default and the two ways of reading the
  generated text.

## Model

| member | source | states |
|---|---|---|
| GraphOrder.TopologicalSort | src/inngest/utils.ts:4-51 | The method returns exactly `SortOutcome` of the nodes, the connections, and the library's answer on the edges it builds. |
| GraphOrder.SortOutcome | src/inngest/utils.ts:10-50 | Definition: the early return without connections, the library call with the de-duplication and the mapping of its failure, and the mapping back to nodes. |
| GraphOrder.BuildEdges | src/inngest/utils.ts:15-32 | Definition: the connection edges followed by the self-edges of the isolated nodes. |
| GraphOrder.ToposortContract | src/inngest/utils.ts:38 | Definition: the library contract the model assumes. An acyclic edge list is sorted forward, and a cyclic one throws an `Error` mentioning "Cyclic". |
| GraphOrder.NoConnectionsUnchanged | src/inngest/utils.ts:10-12 | With no connections, the input node list is returned unchanged, whatever the library would answer. |
| GraphOrder.VerticesOf | src/inngest/utils.ts:15-18 | An id is a vertex of an edge list iff some edge starts or ends at it. |
| GraphOrder.ConnectedIDsOf | src/inngest/utils.ts:21-26 | An id is in the connected set iff some connection starts or ends at it. |
| GraphOrder.IsolatedSelfEdgesOf | src/inngest/utils.ts:28-32 | The self-edges added are exactly the loops on input nodes that no connection touches. |
| GraphOrder.BuildEdgesVertices | src/inngest/utils.ts:15-32 | The edge list mentions every input node id and every connection endpoint, and nothing else. |
| GraphOrder.BuildEdgesNonSelf | src/inngest/utils.ts:15-32 | Every edge that is not a self-edge is a connection. |
| GraphOrder.StepForward | src/inngest/utils.ts:38 | Under the sort contract, the source of every non-self edge comes before its target in the sorted ids. |
| GraphOrder.WalkForward | src/inngest/utils.ts:38 | Along a cycle, every later vertex sorts strictly after the first one. |
| GraphOrder.NoCycleWhenSorted | src/inngest/utils.ts:38 | The assumed library contract is consistent: an edge list with a forward order has no cycle. |
| GraphOrder.ConnectionCycleIsEdgeCycle | src/inngest/utils.ts:15-32 | A cycle among the connections is a cycle of the edge list handed to the library. |
| GraphOrder.EdgeCycleIsConnectionCycle | src/inngest/utils.ts:15-32 | Every cycle of the edge list handed to the library is a cycle among the connections, so the added self-edges close no cycle. |
| GraphOrder.BuildEdgesCycles | src/inngest/utils.ts:15-32 | The edge list handed to the library has a cycle iff the connections do. |
| GraphOrder.Dedup | src/inngest/utils.ts:40 | De-duplication keeps exactly the ids of its input. |
| GraphOrder.DedupFirstOccurrences | src/inngest/utils.ts:40 | The de-duplicated ids are distinct and appear in the order of their first occurrences. |
| GraphOrder.DedupKeepsOrder | src/inngest/utils.ts:40 | Two ids whose first occurrences are ordered stay in that order after de-duplication. |
| GraphOrder.NodeMap | src/inngest/utils.ts:49 | The id map's keys are the node ids, and each key maps to an input node with that id. |
| GraphOrder.Filter | src/inngest/utils.ts:50 | Dropping the ids with no node keeps exactly the ids that are in the map. |
| GraphOrder.ResolveIds | src/inngest/utils.ts:50 | Resolving ids through the map yields nodes whose ids are the filtered ids, in order, and each node is a map value. |
| GraphOrder.FilterDistinct | src/inngest/utils.ts:50 | Filtering a distinct list keeps it distinct. |
| GraphOrder.FilterKeepsOrder | src/inngest/utils.ts:50 | Filtering keeps the relative order of the ids it keeps. |
| GraphOrder.ResultNodesAreInputNodes | src/inngest/utils.ts:49-50 | Every result element is an input node: the one the id map holds for its id. |
| GraphOrder.SortedResultOrdersNodes | src/inngest/utils.ts:15-50 | Under the library's contract, a sorted result lists every input node id exactly once and only input ids, and puts the source of every connection between two input nodes before its target. |
| GraphOrder.CycleIsReported | src/inngest/utils.ts:36-45 | Under the library's contract, the sort ends with the error "Workflow contains a cycle" iff the connections have a cycle. |
| GraphOrder.AcyclicConnectionsSort | src/inngest/utils.ts:10-50 | Under the library's contract, connections without a cycle always give a result. That result lists every input node id once and only input ids, and puts the source of every connection between two input nodes before its target. |
| GraphOrder.FailureMapping | src/inngest/utils.ts:41-46 | Only an `Error` whose message includes "Cyclic" becomes the cycle error; any other failure is re-thrown unchanged. |
| GraphOrder.IsolatedNodeUnderStrictLibrary | src/inngest/utils.ts:28-45 | If the library counted a self-edge as a cycle, any workflow with a connection and a node no connection touches would end with "Workflow contains a cycle". |
| GraphOrder.ChainOrder | src/inngest/utils.ts:4-51 | Three nodes A, B and C connected A→B→C come out exactly as A, B, C. |
| GraphOrder.ChainIds | src/inngest/utils.ts:4-51 | The chain's sorted ids are exactly ["A", "B", "C"]. |
| ExecutorRegistry.Lookup | src/features/executions/lib/executor-registry.ts:28-35 | A lookup succeeds iff the type has an entry, returns that entry unchanged, and otherwise fails with "No executor for the node type: <type>". |
| ExecutorRegistry.GetExecutor | src/features/executions/lib/executor-registry.ts:14-35 | Every node type resolves. The manual-trigger executor is chosen iff the type is INITIAL or MANUAL_TRIGGER. HTTP_REQUEST resolves to the HTTP executor and DISCORD to the Discord executor. |
| ExecutorRegistry.ExecutorsDistinct | src/features/executions/lib/executor-registry.ts:14-26 | Two types share an executor only when they are INITIAL and MANUAL_TRIGGER. |
| AppExecutorRegistry.AppGetExecutor | src/app/features/executions/lib/executor-registry.ts:3-18 | A lookup succeeds iff the type is INITIAL, HTTP_REQUEST or MANUAL_TRIGGER. All three resolve to the app tree's own manual-trigger executor. Any other type fails with "No executor for the node type: <type>". |
| AppExecutorRegistry.TablesAgreeExceptHttp | src/app/features/executions/lib/executor-registry.ts:3-9 | Where the app-tree table has an entry, it hands out a different executor module from the main table. That executor is exported under the same name as the main table's iff the type is not HTTP_REQUEST. |
| AiText.SystemPrompt | src/features/executions/components/google-gemini/executor.ts:92-93 | An empty or missing system prompt becomes "You are a helpful assistant."; otherwise the prompt is rendered against the context. |
| AiText.OptionalFirstText | src/features/executions/components/google-gemini/executor.ts:116-118 | The text is the first block of the first step when that block has type "text", and "" otherwise. |
| AiText.FirstText | src/features/executions/components/openai/executor.ts:115-117 | Reading without optional chaining throws a TypeError iff there is no first step or it has no first block; otherwise it gives the same text as the optional read. |
| Execution.SetVariable | src/features/executions/components/google-gemini/executor.ts:128-133 | The new context differs from the old one only at `variableName`, which holds the given value; every other key keeps its value. |
| GeminiExecutor.GeminiRun | src/features/executions/components/google-gemini/executor.ts:35-70 | The first effect is "loading" and every event is for this node. The fields are checked in the order variableName, credentialID, userPrompt; the first one missing publishes "error" and throws a NonRetriableError with its message, and nothing else happens. |
| GeminiExecutor.CredentialScoped | src/features/executions/components/google-gemini/executor.ts:72-90 | The lookup runs in step "get-credential" with the credential id and the user id. No match publishes "error", throws "Gemini node: Credential not found" and calls no model. |
| GeminiExecutor.GenerationRequest | src/features/executions/components/google-gemini/executor.ts:92-114 | The model is called only for a configured node, inside step "gemini-generate-text". The call uses the rendered prompts, the default system prompt, and the default model "gemini-2.5-flash-lite". |
| GeminiExecutor.SuccessSetsText | src/features/executions/components/google-gemini/executor.ts:116-133 | A successful run ends with "success" and sets only the variable's key, to the text of the model's answer. |
| GeminiExecutor.GenerationFailureRethrown | src/features/executions/components/google-gemini/executor.ts:134-142 | A failing generation publishes "error" last and re-throws the same error. |
| GeminiExecutor.EarlyFailureSilent | src/features/executions/components/google-gemini/executor.ts:72-99 | A service failure before the `try` block propagates without any "error" event. |
| GeminiExecutor.Execute | src/features/executions/components/google-gemini/executor.ts:25-144 | The runtime's log grows by exactly `GeminiRun`'s effects, and the result is its outcome. |
| OpenAIExecutor.OpenAIRun | src/features/executions/components/openai/executor.ts:35-70 | The first effect is "loading" and every event is for this node. The fields are checked in the order variableName, userPrompt, credentialID; the first one missing publishes "error" and throws a NonRetriableError with its message. |
| OpenAIExecutor.CredentialScoped | src/features/executions/components/openai/executor.ts:72-89 | The lookup runs in step "get-credential" with the credential id and the user id. No match publishes "error", throws "OpenAI node: Credential not found" and calls no model. |
| OpenAIExecutor.GenerationRequest | src/features/executions/components/openai/executor.ts:91-113 | The model is called only for a configured node, inside step "openai-generate-text". The call uses the rendered prompts, the default system prompt, and the default model "gpt-5". |
| OpenAIExecutor.SuccessSetsText | src/features/executions/components/openai/executor.ts:115-132 | A successful run ends with "success" and sets only the variable's key, to the text of the model's answer. |
| OpenAIExecutor.GenerationFailureRethrown | src/features/executions/components/openai/executor.ts:100-141 | A failing generation, or an answer with no first block, publishes "error" last and throws that error. |
| OpenAIExecutor.EarlyFailureSilent | src/features/executions/components/openai/executor.ts:72-98 | A service failure before the `try` block propagates without any "error" event. |
| OpenAIExecutor.ValidationOrderDiffers | src/features/executions/components/openai/executor.ts:52-70 | A node with a variable name but neither credential nor prompt is refused for the credential by Gemini and for the prompt by OpenAI. |
| OpenAIExecutor.TextReadsAgree | src/features/executions/components/openai/executor.ts:115-117 | Where OpenAI's unguarded read succeeds, it gives Gemini's optional-chaining text; where it fails, the optional read gives "". |
| OpenAIExecutor.Execute | src/features/executions/components/openai/executor.ts:25-143 | The runtime's log grows by exactly `OpenAIRun`'s effects, and the result is its outcome. |
| AnthropicExecutor.AnthropicRun | src/features/executions/components/anthropic/executor.ts:32-75 | The first effect is "loading". Only variableName and then userPrompt are checked. No credential is looked up: the only service call is the model, with the environment's API key. |
| AnthropicExecutor.GenerationRequest | src/features/executions/components/anthropic/executor.ts:61-85 | The model is called only when both fields are present, from step "anthropic-generate-text". The call uses the rendered prompts and the default model "claude-sonnet-4-5-20250929". |
| AnthropicExecutor.SuccessSetsText | src/features/executions/components/anthropic/executor.ts:86-103 | A successful run ends with "success" and sets only the variable's key, to the answer's text. |
| AnthropicExecutor.GenerationFailureRethrown | src/features/executions/components/anthropic/executor.ts:104-112 | A failure inside `try` publishes "error" last and re-throws. |
| AnthropicExecutor.Execute | src/features/executions/components/anthropic/executor.ts:23-114 | The runtime's log grows by exactly `AnthropicRun`'s effects, and the result is its outcome. |
| DiscordExecutor.Clip | src/features/executions/components/discord/executor.ts:80-91 | The posted content is a prefix of the decoded content of at most 2000 characters. It is unchanged when it fits, and exactly 2000 characters long otherwise. |
| DiscordExecutor.Username | src/features/executions/components/discord/executor.ts:52-54 | A configured username is rendered and decoded; an empty or missing one is sent as absent. |
| DiscordExecutor.DiscordRun | src/features/executions/components/discord/executor.ts:33-116 | The first effect is "loading" and every event is for this node. Missing content is rejected with "Discord node: Message content is required" before any rendering. Every post goes to the configured URL, with the clipped decoded content and the configured username. |
| DiscordExecutor.StepValidationErrorsTwice | src/features/executions/components/discord/executor.ts:59-78 | A missing variable name or webhook URL is caught inside step "discord-webhook". It publishes "error" twice, posts nothing and throws a NonRetriableError. |
| DiscordExecutor.SuccessStoresPostedContent | src/features/executions/components/discord/executor.ts:87-105 | A successful run posts once, ends with "success" and stores exactly the posted content under `variableName`. |
| DiscordExecutor.PostFailureRethrown | src/features/executions/components/discord/executor.ts:106-114 | A failing post publishes one "error" and re-throws the post's error. |
| DiscordExecutor.Execute | src/features/executions/components/discord/executor.ts:33-116 | The runtime's log grows by exactly `DiscordRun`'s effects, and the result is its outcome. |
| SlackExecutor.SlackRun | src/features/executions/components/slack/executor.ts:31-110 | The first effect is "loading" and every event is for this node. Missing content is rejected with "Slack node: Message content is required". Every post goes to the configured URL with the decoded content in full. |
| SlackExecutor.StepValidationErrorsTwice | src/features/executions/components/slack/executor.ts:53-72 | A missing variable name or webhook URL inside step "slack-webhook" publishes "error" twice and throws a NonRetriableError. |
| SlackExecutor.SuccessStoresPostedContent | src/features/executions/components/slack/executor.ts:81-99 | A successful run ends with "success" and stores exactly the posted content under `variableName`. |
| SlackExecutor.PostFailureRethrown | src/features/executions/components/slack/executor.ts:100-108 | A failing post publishes "error" and re-throws the same error. |
| SlackExecutor.DiscordClipsWhereSlackDoesNot | src/features/executions/components/slack/executor.ts:74-85 | For the same successful configuration, Discord stores the clip of Slack's stored content; the two agree iff it has at most 2000 characters. |
| SlackExecutor.Execute | src/features/executions/components/slack/executor.ts:31-110 | The runtime's log grows by exactly `SlackRun`'s effects, and the result is its outcome. |
| HttpRequestExecutor.Options | src/app/features/executions/components/http-request/executor.ts:30-37 | The method defaults to "GET". A body is attached iff the method is POST, PUT or PATCH and the body is non-empty, and it is the configured body. |
| HttpRequestExecutor.NoBodyForGetOrDelete | src/app/features/executions/components/http-request/executor.ts:32-37 | A GET, a DELETE, or a node with no method never carries a body. |
| HttpRequestExecutor.BuildOptions | src/app/features/executions/components/http-request/executor.ts:32-37 | Building the options object in place yields exactly `Options`. |
| HttpRequestExecutor.ResponseData | src/app/features/executions/components/http-request/executor.ts:40-41 | The data is parsed as JSON iff the content type includes "application/json", and kept as text otherwise. |
| HttpRequestExecutor.IsJson | src/app/features/executions/components/http-request/executor.ts:40-41 | Definition: the content-type test. |
| HttpRequestExecutor.JsonWithParameters | src/app/features/executions/components/http-request/executor.ts:40-41 | A content type with parameters, such as "application/json; charset=utf-8", is still parsed as JSON. |
| HttpRequestExecutor.HttpRun | src/app/features/executions/components/http-request/executor.ts:11-56 | No status event is ever published. A missing endpoint throws "HTTP Request Node: No endpoint configured" before any request. Every fetch goes to the endpoint with `Options`. |
| HttpRequestExecutor.SuccessStoresResponse | src/app/features/executions/components/http-request/executor.ts:43-50 | A successful request changes only `httpResponse`, to the status, the status text and the data. |
| HttpRequestExecutor.FailurePropagates | src/app/features/executions/components/http-request/executor.ts:28-52 | A failing fetch or parse propagates its error from step "http-request". |
| HttpRequestExecutor.Execute | src/app/features/executions/components/http-request/executor.ts:11-56 | The runtime's log grows by exactly `HttpRun`'s effects, and the result is its outcome. |
| Triggers.ManualTriggerRun | src/app/features/triggers/components/manual-trigger/executor.ts:5-19 | The context comes back unchanged through exactly one step, "manual-trigger", and no event is published. |
| Triggers.TriggerRun | src/app/features/triggers/components/pg-trigger/executor.ts:6-31 | The context comes back unchanged. The log is "loading", one step, then "success", all for this node on the trigger's channel, and never "error". |
| Triggers.StepKey | src/app/features/triggers/components/pg-trigger/executor.ts:22 | Definition: each trigger's step key, as written. |
| Triggers.StepKeyCollision | src/app/features/triggers/components/pg-trigger/executor.ts:22 | Distinct triggers publish on distinct channels. Their step keys coincide iff they are the Google Form trigger and the payment trigger. |
| Triggers.Execute | src/app/features/triggers/components/google-form-trigger/executor.ts:6-31 | The runtime's log grows by exactly `TriggerRun`'s effects, and the result is its outcome. |
| NodeStatus.Matching | src/app/features/executions/hooks/use-node-status.ts:34-40 | The filter keeps exactly the "data" messages on this channel and topic for this node. |
| NodeStatus.LatestIndex | src/app/features/executions/hooks/use-node-status.ts:41-50 | The message selected has the greatest `createdAt`, and among equals it is the first, as a stable descending sort puts it. |
| NodeStatus.OlderMessageIgnored | src/app/features/executions/hooks/use-node-status.ts:41-50 | Adding an older message ahead of the list does not change the selection. |
| NodeStatus.NextStatus | src/app/features/executions/hooks/use-node-status.ts:27-56 | The status is unchanged when the list is absent or empty or nothing matches. Otherwise it becomes the status of a relevant message with the greatest `createdAt`. |
| NodeStatus.NodeStatusHook.constructor | src/app/features/executions/hooks/use-node-status.ts:20 | The status starts as "initial". |
| NodeStatus.NodeStatusHook.OnData | src/app/features/executions/hooks/use-node-status.ts:27-56 | The effect sets the status to `NextStatus` of the previous status and new data. |
| Webhooks.Field | src/app/api/webhooks/google-form/route.ts:18-26 | Reading a key of a readable body is property access that returns. |
| Webhooks.FormData | src/app/api/webhooks/google-form/route.ts:18-26 | Definition: the Google Form route's `formData`. |
| Webhooks.StripeData | src/app/api/webhooks/stripe/route.ts:18-24 | Definition: the Stripe route's `stripeData`. |
| Webhooks.PaypalData | src/app/api/webhooks/paypal/route.ts:18-23 | Definition: the PayPal route's `paypalData`. |
| Webhooks.BadRequest | src/app/api/webhooks/stripe/route.ts:9-14 | Definition: the 400 answer for a missing workflowID. |
| Webhooks.ServerError | src/app/api/webhooks/stripe/route.ts:38-44 | Definition: the 500 answer of the `catch` block. |
| Webhooks.Succeeded | src/app/api/webhooks/stripe/route.ts:33-36 | Definition: the answer after the dispatch returns. |
| Webhooks.InitialData | src/app/api/webhooks/stripe/route.ts:18-31 | The dispatched data is a one-key object holding the route's mapping under "googleForm", "stripe" or "paypal". |
| Webhooks.RawKeepsBody | src/app/api/webhooks/paypal/route.ts:18-23 | The Google Form and PayPal mappings keep the whole body under "raw", so two bodies that map to the same data are equal. |
| Webhooks.Handle | src/app/api/webhooks/stripe/route.ts:4-45 | A missing workflowID answers 400 and dispatches nothing. At most one dispatch is attempted, with the workflowID and the route's initialData. The answer is 500 iff the body cannot be read or the dispatch raised. |
| Webhooks.DispatchedOnce | src/app/api/webhooks/stripe/route.ts:26-36 | With a workflowID and a readable body there is exactly one dispatch. A successful dispatch answers 200 `{success: true}`, except from the Google Form route, which gives no response. |
| Webhooks.Endpoint.Post | src/app/api/webhooks/google-form/route.ts:4-42 | The endpoint records the dispatches of `Handle` and answers with its response. |
| Dialogs.PartsToEndChars | src/features/executions/components/google-gemini/dialog.tsx:48-52 | The tail of the pattern matches iff every character is a letter, a digit, `_` or `$`. |
| Dialogs.VariableNameChars | src/features/executions/components/google-gemini/dialog.tsx:48-52 | A variable name is valid iff it matches the identifier pattern: a letter, `_` or `$`, then letters, digits, `_` or `$`. |
| Dialogs.AiValid | src/features/executions/components/google-gemini/dialog.tsx:47-57 | Definition: the Gemini and OpenAI `formSchema`. |
| Dialogs.AnthropicValid | src/app/features/executions/components/anthropic/dialog.tsx:45-54 | Definition: the Anthropic `formSchema`. |
| Dialogs.HttpValid | src/features/executions/components/http-request/dialog.tsx:38-49 | Definition: the HTTP request `formSchema`. |
| Dialogs.ShowBodyField | src/features/executions/components/http-request/dialog.tsx:94 | Definition: `showBodyField`. |
| Dialogs.DiscordValid | src/features/executions/components/discord/dialog.tsx:31-43 | Definition: the Discord `formSchema`. |
| Dialogs.SlackValid | src/features/executions/components/slack/dialog.tsx:32-42 | Definition: the Slack `formSchema`. |
| Dialogs.DollarAccepted | src/features/executions/components/google-gemini/dialog.tsx:48-52 | "$", "$ctx" and "my$var" are accepted, although the message names only letters, digits and underscores. "1st", "" and "my-var" are refused. |
| Dialogs.AiDefaults | src/features/executions/components/google-gemini/dialog.tsx:80-86 | Every text field opens on its saved value when that is non-empty and on "" otherwise. The model opens on the saved one when it is non-empty and on the first listed model otherwise. |
| Dialogs.FilledFrom | src/features/executions/components/google-gemini/dialog.tsx:81-85 | Definition: a field shown as `saved \|\| fallback`. |
| Dialogs.AiDefaultsStable | src/features/executions/components/openai/dialog.tsx:85-106 | For any saved data, saving the values the dialog opens with and reopening shows the same values. |
| Dialogs.AiDefaultsRoundTrip | src/features/executions/components/google-gemini/dialog.tsx:93-109 | Reopening a dialog on values it accepted shows exactly those values. |
| Dialogs.AiDefaultsOfNewNode | src/features/executions/components/openai/dialog.tsx:85-91 | A new node opens on the first listed model with every text field empty, so it cannot be submitted as it is. |
| Dialogs.DialogAndExecutorDefaults | src/features/executions/components/google-gemini/dialog.tsx:40-44 | The Gemini and OpenAI dialogs open on a different model than their executor's fallback, which is listed. The Anthropic dialog's first model is the executor's fallback. |
| Dialogs.AnthropicDefaults | src/app/features/executions/components/anthropic/dialog.tsx:74-79 | Every text field opens on its non-empty saved value or "". The model opens on the non-empty saved one, or else on the first listed model, which is the executor's fallback "claude-sonnet-4-5-20250929". |
| Dialogs.AnthropicDefaultsStable | src/app/features/executions/components/anthropic/dialog.tsx:74-93 | For any saved data, reopening on the values the dialog opened with shows them again. |
| Dialogs.AnthropicDefaultsOfNewNode | src/app/features/executions/components/anthropic/dialog.tsx:74-79 | A new node opens on the executor's model with the other fields empty, and cannot be submitted as it is. |
| Dialogs.AnthropicDefaultsRoundTrip | src/app/features/executions/components/anthropic/dialog.tsx:84-100 | Reopening on accepted values shows exactly those values. |
| Dialogs.HttpDefaults | src/features/executions/components/http-request/dialog.tsx:69-74 | The variable name, endpoint and body open on their non-empty saved values or "". The method opens on its non-empty saved value or "GET", which is the method the executor would use. |
| Dialogs.HttpDefaultsStable | src/features/executions/components/http-request/dialog.tsx:69-88 | For any saved data, reopening on the values the dialog opened with shows them again. |
| Dialogs.HttpDefaultsOfNewNode | src/features/executions/components/http-request/dialog.tsx:69-74 | A new node opens on GET with the other fields empty, and cannot be submitted as it is. |
| Dialogs.HttpDefaultsRoundTrip | src/features/executions/components/http-request/dialog.tsx:79-99 | Reopening on accepted values shows exactly those values. |
| Dialogs.BodyShownIffSent | src/features/executions/components/http-request/dialog.tsx:94 | For accepted values with a body, the body field is shown iff the executor sends that body. |
| Dialogs.DiscordDefaults | src/features/executions/components/discord/dialog.tsx:63-68 | Every field, the optional username included, opens on its non-empty saved value or "". |
| Dialogs.DiscordDefaultsStable | src/features/executions/components/discord/dialog.tsx:63-82 | For any saved data, reopening on the values the dialog opened with shows them again. |
| Dialogs.DiscordDefaultsOfNewNode | src/features/executions/components/discord/dialog.tsx:63-68 | A new node opens with every field empty, and cannot be submitted as it is. |
| Dialogs.DiscordDefaultsRoundTrip | src/features/executions/components/discord/dialog.tsx:73-90 | Reopening on accepted values shows exactly those values. |
| Dialogs.DialogContentNotClipped | src/features/executions/components/discord/dialog.tsx:38-41 | Content the dialog accepts is within 2000 characters, so the executor's clip leaves it unchanged. |
| Dialogs.SlackDefaults | src/features/executions/components/slack/dialog.tsx:62-66 | Every field opens on its non-empty saved value or "". Without saved content, the values opened cannot be submitted. |
| Dialogs.SlackDefaultsStable | src/features/executions/components/slack/dialog.tsx:62-79 | For any saved data, reopening on the values the dialog opened with shows them again. |
| Dialogs.SlackDefaultsOfNewNode | src/features/executions/components/slack/dialog.tsx:62-66 | A new node opens with every field empty, and cannot be submitted as it is. |
| Dialogs.SlackDefaultsRoundTrip | src/features/executions/components/slack/dialog.tsx:71-87 | Reopening on accepted values shows exactly those values. |
| Dialogs.SlackAcceptsLongerContent | src/features/executions/components/slack/dialog.tsx:32-42 | The Slack schema accepts exactly what the Discord schema accepts, plus content longer than 2000 characters. |
| Dialogs.Dialog.Submit | src/features/executions/components/google-gemini/dialog.tsx:106-109 | A value the schema accepts is passed on and closes the dialog. A refused value changes nothing. Every submitted value satisfies the schema. |
| EditorNodes.MergeData | src/features/executions/components/google-gemini/node.tsx:41-46 | The merged data has every key of either side, and the submitted value wins. |
| EditorNodes.UpdateNodeData | src/features/executions/components/google-gemini/node.tsx:37-50 | The list keeps its length. Nodes with another id are unchanged; a node with this id keeps everything except its data, which becomes the merge. |
| EditorNodes.IdsPreserved | src/features/executions/components/openai/node.tsx:37-50 | The update keeps every node's id in place. |
| EditorNodes.UpdateIdempotent | src/features/executions/components/anthropic/node.tsx:36-49 | Submitting the same values twice equals submitting them once. |
| EditorNodes.StringField | src/features/executions/components/google-gemini/node.tsx:53 | A data field reads as present iff the key holds a string. |
| EditorNodes.AiDescription | src/features/executions/components/google-gemini/node.tsx:53 | Without a prompt the description is "Not Configured". Otherwise it is the model or the first listed model, ": ", at most the first 50 characters of the prompt, then always "...". |
| EditorNodes.HttpDescription | src/features/executions/components/http-request/node.tsx:52 | Without an endpoint the description is "Not Configured". Otherwise it is the method or "GET", ": ", then the full endpoint. |
| EditorNodes.DiscordDescription | src/features/executions/components/discord/node.tsx:51 | Without content the description is "Not Configured". Otherwise it is "Send: ", at most the first 50 characters of the content, then "...". |
| EditorNodes.DescriptionAfterSubmit | src/features/executions/components/google-gemini/node.tsx:37-53 | After submitting a model and a prompt, the node describes exactly that model and prompt. |
| CredentialForm.Defaults | src/features/credentials/components/credential-form.tsx:65-69 | A new form opens on an empty OPENAI credential that cannot be submitted. An existing credential opens on its own values. |
| CredentialForm.Valid | src/features/credentials/components/credential-form.tsx:18-22 | Definition: the credential `formSchema`. |
| CredentialForm.IsEdit | src/features/credentials/components/credential-form.tsx:61 | Definition: `isEdit`. |
| CredentialForm.Title | src/features/credentials/components/credential-form.tsx:91 | The title is "Edit Credential" iff the form edits, and "Create Credential" otherwise. |
| CredentialForm.Form.OnSubmit | src/features/credentials/components/credential-form.tsx:72-85 | Called with schema-valid values, the form calls update, with the initial credential's id, iff the initial credential has an id, and calls create otherwise. Each call is recorded, and every recorded call carries schema-valid values. |
| CredentialForm.Form.HandleSubmit | src/features/credentials/components/credential-form.tsx:64-100 | A mutation is called iff the schema accepts the values; refused values leave the calls unchanged. Accepted values are sent as they are, by update iff the form edits. |
| CredentialForm.OpenedWithoutIdCreates | src/features/credentials/components/credential-form.tsx:61-85 | A form opened on a credential without an id shows that credential, yet both its title and its submit take the create path. |
| AccountSettings.MismatchIssue | src/features/auth/components/account-settings.tsx:41-51 | The refinement reports an issue iff the passwords differ, and attaches it to `confirmPassword` with "Passwords do not match". |
| AccountSettings.Valid | src/features/auth/components/account-settings.tsx:41-51 | Definition: `changePasswordSchema`. |
| AccountSettings.ValidIffNoMismatch | src/features/auth/components/account-settings.tsx:41-51 | Values that pass the field rules are valid iff the refinement reports nothing. |
| AccountSettings.DefaultsNotSubmittable | src/features/auth/components/account-settings.tsx:69-74 | The defaults revoke other sessions and cannot be submitted as they are. |
| AccountSettings.AvatarFallback | src/features/auth/components/account-settings.tsx:125 | The fallback has at most the first two characters of the name, or of the email when there is no name, upper-cased. |
| AccountSettings.EmptyNameShowsNothing | src/features/auth/components/account-settings.tsx:125 | An empty name gives an empty fallback. With no name, an email of two or more characters gives two characters. |
| AccountSettings.AccountPage.HandleDeleteAccount | src/features/auth/components/account-settings.tsx:98-112 | The flag is raised, the account is deleted with callback "/goodbye", and the flag is lowered again. |
| ResetPassword.MismatchPath | src/features/auth/components/reset-password-form.tsx:29-37 | A mismatch is reported iff the passwords differ, and it is reported on `confirmPassword`. |
| ResetPassword.Valid | src/features/auth/components/reset-password-form.tsx:29-37 | Definition: `resetPasswordSchema`. |
| ResetPassword.IsTokenInvalid | src/features/auth/components/reset-password-form.tsx:79 | Definition: `isTokenInvalid`. |
| ResetPassword.SubmitDisabled | src/features/auth/components/reset-password-form.tsx:128 | Definition: the submit button's `disabled`. |
| ResetPassword.OnSubmit | src/features/auth/components/reset-password-form.tsx:55-76 | The password is reset iff there is a token, with that token and the new password. Otherwise the form shows "Reset token is missing or invalid.". |
| ResetPassword.HandleSubmit | src/features/auth/components/reset-password-form.tsx:48-92 | `onSubmit` runs iff the schema accepts the values. A reset request then carries the token and a new password of at least 8 characters that the confirmation repeats. |
| ResetPassword.EnabledButtonResets | src/features/auth/components/reset-password-form.tsx:79-128 | The button is disabled iff a request is pending, the token is missing, or there is an error. An enabled button always leads to a reset call. |
| ExecutionsView.FormatStatus | src/features/executions/components/executions.tsx:103-105 | The label keeps the length and the first character, and lower-cases every later character. |
| ExecutionsView.FormatStatusIdempotent | src/features/executions/components/executions.tsx:103-105 | Formatting a label again changes nothing. |
| ExecutionsView.KnownLabels | src/features/executions/components/executions.tsx:103-105 | SUCCESS, FAILED and RUNNING show as "Success", "Failed" and "Running". |
| ExecutionsView.StatusIconOf | src/features/executions/components/executions.tsx:89-101 | Each icon is chosen iff its status is the one named: check for SUCCESS, alert for FAILED, spinner for RUNNING, and the clock for anything else. |

## Left out

- The durable-step machinery is not modelled: the memoisation of `step.run` and `step.ai.wrap`, retries, and replays. A step is modelled as entering its key once, and a step's failure as the error it throws.
- Publish failures are not modelled: publishing a status event always succeeds.
- JavaScript strings are UTF-16. `slice(0, 2000)`, `slice(0, 50)` and `toUpperCase` are modelled on characters, and case mapping on ASCII letters only.
- The HTTP client throws on a non-2xx response. This is modelled as the fetch service raising, and the status and headers of such a response are not modelled.
- The webhook routes' `new URL(req.url)` is taken to succeed.
- Logging to the console is left out.
- `sendWorkflowExecution` is a parameter of the routes, because its definition is not part of this model.
- The run coordinator is not part of this model. It folds the executors over the sorted nodes and records the execution rows.
- NodeStatus.NextStatus: ordering is by `createdAt` as an integer. An unparseable date (NaN in the comparator) and non-"data" messages inside the sort are not modelled.
- GraphOrder.TopologicalSort: the sorting library is a parameter, assumed to accept the self-edges of isolated nodes and not count them as cycles. The library's own source is not part of this model. If the library did count a self-edge as a cycle, `GraphOrder.IsolatedNodeUnderStrictLibrary` shows the consequence: every workflow with a connection and an unconnected node would fail with "Workflow contains a cycle".
- Template rendering (Handlebars), HTML-entity decoding, decryption of stored credentials, and the AI SDKs are services that return a value or raise. Their output is not interpreted.
- AnthropicExecutor.AnthropicRun: the `ANTHROPIC_API_KEY` environment value is a parameter. The case where it is unset is passed to the model unchanged.
- The app-tree Gemini executor stub is not modelled; the `src/features` executors are.
- The status channel definitions are not modelled; each channel is a constructor of `Channel`. This includes the misspelled `stattus` topic at src/inngest/channels/http-request.ts:7.
- The main registry imports its manual-trigger, HTTP request, Google Form trigger and payment trigger executors from modules of the features tree that are not part of this model. These are the INITIAL, MANUAL_TRIGGER, HTTP_REQUEST, GOOGLE_FORM_TRIGGER and PAYMENT_TRIGGER entries. Their behaviour is modelled by the app-tree executors of the same names, in `triggers.dfy` and `http_request.dfy`. The registries keep the manual-trigger modules of the two trees apart.
- The JSX layout, toasts, navigation, dialog open and close wiring beyond `Dialog.Submit`, and query hooks are not modelled.
- AccountSettings: `handleChangePassword` is not modelled beyond its schema, because it is a direct client call with a toast.
- AccountSettings.AccountPage.HandleDeleteAccount is modelled with the client calling its error callback, not rejecting. A rejection would leave the flag raised.
- Dialogs: each zod schema is a validity predicate. The order of its issues and the short-circuiting of `refine` before field errors are not modelled.
- Dialogs.AnthropicDefaults: the Anthropic node imports the `./dialog` of its own directory, src/features/executions/components/anthropic/, and that file is not part of this model. The Anthropic dialog and its model list are modelled by the app-tree copy, src/app/features/executions/components/anthropic/dialog.tsx. So the first model that `EditorNodes.AiDescription` uses for the Anthropic node comes from that copy.
- CredentialForm: the credential type enum is modelled as the three offered options: OPENAI, ANTHROPIC and GOOGLE_GEMINI.
- Durations and other floating-point values are not modelled.
