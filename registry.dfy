/** The executor table of the features tree: every node type has an executor. */
module ExecutorRegistry {
  import opened Wrappers
  import opened Workflow

  /** The executors a registry can hand out, one per executor module.  The
      two trees export executors of the same name from different modules:
      `ManualTriggerExecutor` is the features tree's `manualTriggerExecutor`,
      `AppManualTriggerExecutor` the app tree's. */
  datatype Executor =
    | ManualTriggerExecutor
    | AppManualTriggerExecutor
    | HttpRequestExecutor
    | GoogleFormTriggerExecutor
    | PaymentTriggerExecutor
    | PaypalTriggerExecutor
    | GoogleGeminiExecutor
    | AnthropicExecutor
    | OpenAIExecutor
    | DiscordExecutor
    | SlackExecutor

  /** `executorRegistry`. */
  const Registry: map<NodeType, Executor> := map[
    INITIAL := ManualTriggerExecutor,
    HTTP_REQUEST := HttpRequestExecutor,
    MANUAL_TRIGGER := ManualTriggerExecutor,
    GOOGLE_FORM_TRIGGER := GoogleFormTriggerExecutor,
    PAYMENT_TRIGGER := PaymentTriggerExecutor,
    PAYPAL_TRIGGER := PaypalTriggerExecutor,
    GOOGLE_GEMINI := GoogleGeminiExecutor,
    ANTHROPIC := AnthropicExecutor,
    OPENAI := OpenAIExecutor,
    DISCORD := DiscordExecutor,
    SLACK := SlackExecutor
  ]

  /** The name the executor is exported under. */
  function ExportedName(e: Executor): string {
    match e
    case ManualTriggerExecutor => "manualTriggerExecutor"
    case AppManualTriggerExecutor => "manualTriggerExecutor"
    case HttpRequestExecutor => "httpRequestExecutor"
    case GoogleFormTriggerExecutor => "googleFromTriggerExecutor"
    case PaymentTriggerExecutor => "paymentTriggerExecutor"
    case PaypalTriggerExecutor => "paypalTriggerExecutor"
    case GoogleGeminiExecutor => "googleGeminiExecutor"
    case AnthropicExecutor => "anthropicExecutor"
    case OpenAIExecutor => "OpenAIExecutor"
    case DiscordExecutor => "DiscordExecutor"
    case SlackExecutor => "SlackExecutor"
  }

  /** The message thrown for a type without an entry. */
  function NoExecutorMessage(t: NodeType): string {
    "No executor for the node type: " + NodeTypeName(t)
  }

  /** The guarded lookup both registries share: a present entry is returned
      unchanged, a missing one throws. */
  function Lookup(registry: map<NodeType, Executor>, t: NodeType): (r: Result<Executor, string>)
    ensures r.Ok? <==> t in registry
    ensures r.Ok? ==> r.value == registry[t]
    ensures r.Err? ==> r.error == NoExecutorMessage(t)
  {
    if t in registry then Ok(registry[t]) else Err(NoExecutorMessage(t))
  }

  /** `getExecutor` of the features tree: it succeeds for every node type, and
      exactly INITIAL and MANUAL_TRIGGER share the manual-trigger executor. */
  function GetExecutor(t: NodeType): (r: Result<Executor, string>)
    ensures r.Ok?
    ensures r.value == ManualTriggerExecutor <==> (t == INITIAL || t == MANUAL_TRIGGER)
    ensures t == HTTP_REQUEST ==> r.value == HttpRequestExecutor
    ensures t == DISCORD ==> r.value == DiscordExecutor
  {
    Lookup(Registry, t)
  }

  /** Apart from INITIAL and MANUAL_TRIGGER, two node types never share an executor. */
  lemma ExecutorsDistinct(t: NodeType, u: NodeType)
    requires GetExecutor(t) == GetExecutor(u)
    ensures t == u || ({t, u} == {INITIAL, MANUAL_TRIGGER})
  {
  }
}

/** The executor table of the app tree: a partial table in which only three
    node types have an entry, all of them the manual trigger. */
module AppExecutorRegistry {
  import opened Wrappers
  import opened Workflow
  import opened ExecutorRegistry

  /** `executorRegistry` of the app tree, over the app tree's manual trigger;
      HTTP_REQUEST too maps to it. */
  const AppRegistry: map<NodeType, Executor> := map[
    INITIAL := AppManualTriggerExecutor,
    HTTP_REQUEST := AppManualTriggerExecutor,
    MANUAL_TRIGGER := AppManualTriggerExecutor
  ]

  /** `getExecutor` of the app tree. */
  function AppGetExecutor(t: NodeType): (r: Result<Executor, string>)
    ensures r.Ok? <==> t in {INITIAL, HTTP_REQUEST, MANUAL_TRIGGER}
    ensures r.Ok? ==> r.value == AppManualTriggerExecutor
    ensures r.Err? ==> r.error == "No executor for the node type: " + NodeTypeName(t)
  {
    Lookup(AppRegistry, t)
  }

  /** The two tables never hand out the same executor module.  Where the app
      table has an entry, its executor is exported under the same name as the
      features table's exactly when the type is not HTTP_REQUEST. */
  lemma TablesAgreeExceptHttp(t: NodeType)
    requires AppGetExecutor(t).Ok?
    ensures AppGetExecutor(t).value != GetExecutor(t).value
    ensures ExportedName(AppGetExecutor(t).value) == ExportedName(GetExecutor(t).value) <==> t != HTTP_REQUEST
  {
  }
}
