/**
 * What the node executors share: the status events they publish, the durable
 * steps they enter, the calls they make into outside services, the values they
 * return or throw, and the services themselves as uninterpreted functions.
 */
module Execution {
  import opened Wrappers
  import opened Values

  /** The three statuses of a channel's "status" topic. */
  datatype Status = Loading | Success | Error

  /** The realtime channel an executor publishes on. */
  datatype Channel =
    | GoogleGeminiChannel
    | OpenAIChannel
    | AnthropicChannel
    | DiscordChannel
    | SlackChannel
    | GoogleFormTriggerChannel
    | PaymentTriggerChannel
    | PaypalTriggerChannel

  /** `channel().status({ nodeID, status })`. */
  datatype Event = Event(channel: Channel, nodeID: string, status: Status)

  /** A stored credential row. */
  datatype Credential = Credential(id: string, userId: string, value: string)

  /** The AI provider a text generation goes to. */
  datatype Provider = Google | OpenAI | Anthropic

  /** The arguments of one `generateText` call. */
  datatype Generation = Generation(provider: Provider, apiKey: string, model: string, system: string, prompt: string)

  /** One content part of a generation step, with its `type` and `text`. */
  datatype ContentPart = ContentPart(partType: string, text: string)

  /** One element of the `steps` that `generateText` returns. */
  datatype GenStep = GenStep(content: seq<ContentPart>)

  /** The JSON body of a webhook post. */
  datatype Message = Message(content: string, username: Option<string>)

  /** What an HTTP response offers the request executor. */
  datatype Response = Response(status: int, statusText: string, contentType: Option<string>, body: string)

  /** A call into a service outside the model, with its arguments. */
  datatype ServiceCall =
    | FindCredential(id: string, userId: string)
    | Generate(request: Generation)
    | PostWebhook(url: string, message: Message)
    | Fetch(url: string, httpMethod: string, body: Option<string>)

  /** One observable effect of an executor, in the order it happens. */
  datatype Effect =
    | Publish(event: Event)
    | EnterStep(key: string)
    | Invoke(call: ServiceCall)

  /** What an executor throws. */
  datatype Thrown =
    | NonRetriableError(message: string)   // `new NonRetriableError(message)`
    | ServiceError(message: string)        // an error thrown by a service, re-thrown unchanged
    | TypeError                             // reading a property of `undefined`

  /** What an executor returns or throws. */
  datatype Outcome = Done(ctx: Context) | Threw(error: Thrown)

  /** The effects of one executor run and how it ends. */
  datatype Trace = Trace(log: seq<Effect>, outcome: Outcome)

  /** The services the executors call, taken as uninterpreted functions:
      Handlebars `compile(t)(ctx)`, html-entities `decode`, the Prisma
      `findUnique` lookup by id and owner, `decrypt`, `generateText`,
      `ky.post`, `ky(endpoint, options)` and `response.json()`. */
  datatype Services = Services(
    render: (string, Context) -> Call<string>,
    decode: string -> string,
    findCredential: (string, string) -> Call<Option<Credential>>,
    decrypt: string -> Call<string>,
    generate: Generation -> Call<seq<GenStep>>,
    post: (string, Message) -> Call<()>,
    fetch: (string, string, Option<string>) -> Call<Response>,
    parseJson: string -> Call<Value>)

  /** A run that ends early on a missing field: "loading", "error", then a
      `NonRetriableError` with the given message. */
  function Rejected(channel: Channel, nodeID: string, message: string): Trace {
    Trace([Publish(Event(channel, nodeID, Loading)), Publish(Event(channel, nodeID, Error))],
          Threw(NonRetriableError(message)))
  }

  function Last(log: seq<Effect>): Effect
    requires log != []
  {
    log[|log| - 1]
  }

  /** Every event of the log is on `channel` and for `nodeID`. */
  ghost predicate EventsFor(log: seq<Effect>, channel: Channel, nodeID: string) {
    forall e :: e in log && e.Publish? ==> e.event.channel == channel && e.event.nodeID == nodeID
  }

  /** `{...context, [variableName]: v}`: only the variable's key changes. */
  function SetVariable(ctx: Context, variableName: string, v: Value): (r: Context)
    ensures OnlyKeySet(ctx, r, variableName, v)
  {
    ctx[variableName := v]
  }

  /** The context an AI executor returns: `{...context, [variableName]: { text }}`. */
  function WithText(ctx: Context, variableName: string, text: string): Context {
    SetVariable(ctx, variableName, Obj(map["text" := Str(text)]))
  }

  /** The context a messaging executor returns: `{...context, [variableName]: { messageContent }}`. */
  function WithMessageContent(ctx: Context, variableName: string, content: string): Context {
    SetVariable(ctx, variableName, Obj(map["messageContent" := Str(content)]))
  }

  /** The runtime an executor runs against: it records, in order, every event
      published, every step entered and every service called. */
  class Runtime {
    var log: seq<Effect>

    constructor ()
      ensures log == []
    {
      log := [];
    }

    /** `await publish(channel().status({ nodeID, status }))`. */
    method Publish(channel: Channel, nodeID: string, status: Status)
      modifies this
      ensures log == old(log) + [Effect.Publish(Event(channel, nodeID, status))]
    {
      log := log + [Effect.Publish(Event(channel, nodeID, status))];
    }

    /** Entering `step.run(key, …)` or `step.ai.wrap(key, …)`. */
    method EnterStep(key: string)
      modifies this
      ensures log == old(log) + [Effect.EnterStep(key)]
    {
      log := log + [Effect.EnterStep(key)];
    }

    /** Recording a call into a service. */
    method Invoke(call: ServiceCall)
      modifies this
      ensures log == old(log) + [Effect.Invoke(call)]
    {
      log := log + [Effect.Invoke(call)];
    }
  }
}
