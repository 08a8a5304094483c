/** `anthropicExecutor`: two field checks, no stored credential (the API key
    comes from the process environment), one model call. */
module AnthropicExecutor {
  import opened Wrappers
  import opened Strings
  import opened Values
  import opened Execution
  import opened AiText

  /** The node data the executor reads; it has no credential field. */
  datatype AnthropicData = AnthropicData(
    variableName: Option<string>,
    model: Option<string>,
    systemPrompt: Option<string>,
    userPrompt: Option<string>)

  const DefaultModel := "claude-sonnet-4-5-20250929"

  /** Everything the executor does and its outcome; `envApiKey` is the value of
      the `ANTHROPIC_API_KEY` environment variable. */
  function AnthropicRun(data: AnthropicData, nodeID: string, envApiKey: string, ctx: Context, svc: Services): (t: Trace)
    // The first effect is the "loading" event, and every event is this node's.
    ensures |t.log| >= 1 && t.log[0] == Publish(Event(AnthropicChannel, nodeID, Loading))
    ensures EventsFor(t.log, AnthropicChannel, nodeID)
    // Only variableName and then userPrompt are checked.
    ensures !Truthy(data.variableName) ==> t == Rejected(AnthropicChannel, nodeID, "Anthropic node: Variable name is missing")
    ensures Truthy(data.variableName) && !Truthy(data.userPrompt) ==>
              t == Rejected(AnthropicChannel, nodeID, "Anthropic node: User prompt is missing")
    // No credential is ever looked up: the only call is the model's, keyed from the environment.
    ensures forall c :: Invoke(c) in t.log ==> c.Generate? && c.request.apiKey == envApiKey && c.request.provider == Anthropic
  {
    var loading := Publish(Event(AnthropicChannel, nodeID, Loading));
    var error := Publish(Event(AnthropicChannel, nodeID, Error));
    if !Truthy(data.variableName) then Rejected(AnthropicChannel, nodeID, "Anthropic node: Variable name is missing")
    else if !Truthy(data.userPrompt) then Rejected(AnthropicChannel, nodeID, "Anthropic node: User prompt is missing")
    else
      match SystemPrompt(data.systemPrompt, ctx, svc.render)
      case Raised(m) => Trace([loading], Threw(ServiceError(m)))
      case Returned(system) =>
        match svc.render(data.userPrompt.value, ctx)
        case Raised(m) => Trace([loading], Threw(ServiceError(m)))
        case Returned(prompt) =>
          var req := Generation(Anthropic, envApiKey, OrElse(data.model, DefaultModel), system, prompt);
          var wrap := EnterStep("anthropic-generate-text");
          var call := Invoke(Generate(req));
          match svc.generate(req)
          case Raised(m) => Trace([loading, wrap, call, error], Threw(ServiceError(m)))
          case Returned(steps) =>
            match FirstText(steps)
            case Err(e) => Trace([loading, wrap, call, error], Threw(e))
            case Ok(text) =>
              Trace([loading, wrap, call, Publish(Event(AnthropicChannel, nodeID, Success))],
                    Done(WithText(ctx, data.variableName.value, text)))
  }

  /** The model is called only when both fields are set, inside step
      "anthropic-generate-text", with the default system prompt and model filled in. */
  lemma GenerationRequest(data: AnthropicData, nodeID: string, envApiKey: string, ctx: Context, svc: Services, req: Generation)
    requires Invoke(Generate(req)) in AnthropicRun(data, nodeID, envApiKey, ctx, svc).log
    ensures Truthy(data.variableName) && Truthy(data.userPrompt)
    ensures req.model == OrElse(data.model, DefaultModel)
    ensures SystemPrompt(data.systemPrompt, ctx, svc.render) == Returned(req.system)
    ensures svc.render(data.userPrompt.value, ctx) == Returned(req.prompt)
    ensures AnthropicRun(data, nodeID, envApiKey, ctx, svc).log[1] == EnterStep("anthropic-generate-text")
  {
  }

  /** A successful run ends with "success" and sets only the variable's key, to
      the text of the answer's first content part. */
  lemma SuccessSetsText(data: AnthropicData, nodeID: string, envApiKey: string, ctx: Context, svc: Services)
    requires AnthropicRun(data, nodeID, envApiKey, ctx, svc).outcome.Done?
    ensures var t := AnthropicRun(data, nodeID, envApiKey, ctx, svc);
      && Truthy(data.variableName)
      && Last(t.log) == Publish(Event(AnthropicChannel, nodeID, Success))
      && exists req :: Invoke(Generate(req)) in t.log && svc.generate(req).Returned?
           && FirstText(svc.generate(req).value).Ok?
           && t.outcome.ctx == WithText(ctx, data.variableName.value, OptionalFirstText(svc.generate(req).value))
  {
  }

  /** A failure inside the `try` block publishes "error" and re-throws it. */
  lemma GenerationFailureRethrown(data: AnthropicData, nodeID: string, envApiKey: string, ctx: Context, svc: Services, req: Generation)
    requires Invoke(Generate(req)) in AnthropicRun(data, nodeID, envApiKey, ctx, svc).log
    ensures var t := AnthropicRun(data, nodeID, envApiKey, ctx, svc);
      svc.generate(req).Raised? ==>
        t.outcome == Threw(ServiceError(svc.generate(req).message))
        && Last(t.log) == Publish(Event(AnthropicChannel, nodeID, Error))
    ensures var t := AnthropicRun(data, nodeID, envApiKey, ctx, svc);
      svc.generate(req).Returned? && (|svc.generate(req).value| == 0 || |svc.generate(req).value[0].content| == 0) ==>
        t.outcome == Threw(TypeError)
        && Last(t.log) == Publish(Event(AnthropicChannel, nodeID, Error))
  {
  }

  /** `anthropicExecutor` against a runtime that records its effects. */
  method Execute(rt: Runtime, data: AnthropicData, nodeID: string, envApiKey: string, ctx: Context, svc: Services)
    returns (r: Outcome)
    modifies rt
    ensures rt.log == old(rt.log) + AnthropicRun(data, nodeID, envApiKey, ctx, svc).log
    ensures r == AnthropicRun(data, nodeID, envApiKey, ctx, svc).outcome
  {
    ghost var start := rt.log;
    ghost var t := AnthropicRun(data, nodeID, envApiKey, ctx, svc);
    var loading := Publish(Event(AnthropicChannel, nodeID, Loading));
    var error := Publish(Event(AnthropicChannel, nodeID, Error));
    rt.Publish(AnthropicChannel, nodeID, Loading);

    if !Truthy(data.variableName) {
      rt.Publish(AnthropicChannel, nodeID, Error);
      return Threw(NonRetriableError("Anthropic node: Variable name is missing"));
    }
    if !Truthy(data.userPrompt) {
      rt.Publish(AnthropicChannel, nodeID, Error);
      return Threw(NonRetriableError("Anthropic node: User prompt is missing"));
    }

    var system := SystemPrompt(data.systemPrompt, ctx, svc.render);
    if system.Raised? {
      assert t == Trace([loading], Threw(ServiceError(system.message)));
      return Threw(ServiceError(system.message));
    }
    var prompt := svc.render(data.userPrompt.value, ctx);
    if prompt.Raised? {
      assert t == Trace([loading], Threw(ServiceError(prompt.message)));
      return Threw(ServiceError(prompt.message));
    }

    // try {
    var req := Generation(Anthropic, envApiKey, OrElse(data.model, DefaultModel), system.value, prompt.value);
    var wrap := EnterStep("anthropic-generate-text");
    var call := Invoke(Generate(req));
    rt.EnterStep("anthropic-generate-text");
    rt.Invoke(Generate(req));
    assert rt.log == start + [loading, wrap, call];
    var generated := svc.generate(req);
    if generated.Raised? {
      // } catch (error) {
      rt.Publish(AnthropicChannel, nodeID, Error);
      assert t == Trace([loading, wrap, call, error], Threw(ServiceError(generated.message)));
      return Threw(ServiceError(generated.message));
    }
    var text := FirstText(generated.value);
    if text.Err? {
      // } catch (error) {
      rt.Publish(AnthropicChannel, nodeID, Error);
      assert t == Trace([loading, wrap, call, error], Threw(text.error));
      return Threw(text.error);
    }
    var success := Publish(Event(AnthropicChannel, nodeID, Success));
    rt.Publish(AnthropicChannel, nodeID, Success);
    assert t == Trace([loading, wrap, call, success], Done(WithText(ctx, data.variableName.value, text.value)));
    return Done(WithText(ctx, data.variableName.value, text.value));
  }
}
