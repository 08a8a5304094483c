/** `googleGeminiExecutor`: validate the node, fetch the owner's credential,
    call Gemini once, store the text under the node's variable name. */
module GeminiExecutor {
  import opened Wrappers
  import opened Strings
  import opened Values
  import opened Execution
  import opened AiText

  const DefaultModel := "gemini-2.5-flash-lite"

  /** Everything the executor does and its outcome, given what the services return. */
  function GeminiRun(data: AiNodeData, nodeID: string, userID: string, ctx: Context, svc: Services): (t: Trace)
    // The first effect is the "loading" event, and every event is this node's.
    ensures |t.log| >= 2 && t.log[0] == Publish(Event(GoogleGeminiChannel, nodeID, Loading))
    ensures EventsFor(t.log, GoogleGeminiChannel, nodeID)
    // Validation order: variableName, then credentialID, then userPrompt.
    ensures !Truthy(data.variableName) ==> t == Rejected(GoogleGeminiChannel, nodeID, "Gemini node: Variable name is missing")
    ensures Truthy(data.variableName) && !Truthy(data.credentialID) ==>
              t == Rejected(GoogleGeminiChannel, nodeID, "Gemini node: Credential is missing")
    ensures Truthy(data.variableName) && Truthy(data.credentialID) && !Truthy(data.userPrompt) ==>
              t == Rejected(GoogleGeminiChannel, nodeID, "Gemini node: User prompt is missing")
  {
    var loading := Publish(Event(GoogleGeminiChannel, nodeID, Loading));
    var error := Publish(Event(GoogleGeminiChannel, nodeID, Error));
    if !Truthy(data.variableName) then Rejected(GoogleGeminiChannel, nodeID, "Gemini node: Variable name is missing")
    else if !Truthy(data.credentialID) then Rejected(GoogleGeminiChannel, nodeID, "Gemini node: Credential is missing")
    else if !Truthy(data.userPrompt) then Rejected(GoogleGeminiChannel, nodeID, "Gemini node: User prompt is missing")
    else
      var step := EnterStep("get-credential");
      var find := Invoke(FindCredential(data.credentialID.value, userID));
      var lookup := [loading, step, find];
      match svc.findCredential(data.credentialID.value, userID)
      case Raised(m) => Trace(lookup, Threw(ServiceError(m)))
      case Returned(None) => Trace([loading, step, find, error], Threw(NonRetriableError("Gemini node: Credential not found")))
      case Returned(Some(credential)) =>
        match SystemPrompt(data.systemPrompt, ctx, svc.render)
        case Raised(m) => Trace(lookup, Threw(ServiceError(m)))
        case Returned(system) =>
          match svc.render(data.userPrompt.value, ctx)
          case Raised(m) => Trace(lookup, Threw(ServiceError(m)))
          case Returned(prompt) =>
            match svc.decrypt(credential.value)
            case Raised(m) => Trace(lookup, Threw(ServiceError(m)))
            case Returned(apiKey) =>
              var req := Generation(Google, apiKey, OrElse(data.model, DefaultModel), system, prompt);
              var wrap := EnterStep("gemini-generate-text");
              var call := Invoke(Generate(req));
              match svc.generate(req)
              case Raised(m) => Trace([loading, step, find, wrap, call, error], Threw(ServiceError(m)))
              case Returned(steps) =>
                Trace([loading, step, find, wrap, call, Publish(Event(GoogleGeminiChannel, nodeID, Success))],
                      Done(WithText(ctx, data.variableName.value, OptionalFirstText(steps))))
  }

  /** The credential is looked up, inside step "get-credential", by its id and
      the running user, and a missing row ends the run before any model call. */
  lemma CredentialScoped(data: AiNodeData, nodeID: string, userID: string, ctx: Context, svc: Services)
    requires Configured(data)
    ensures var t := GeminiRun(data, nodeID, userID, ctx, svc);
      |t.log| >= 3 && t.log[1] == EnterStep("get-credential") && t.log[2] == Invoke(FindCredential(data.credentialID.value, userID))
    ensures var t := GeminiRun(data, nodeID, userID, ctx, svc);
      svc.findCredential(data.credentialID.value, userID) == Returned(None) ==>
        && t.outcome == Threw(NonRetriableError("Gemini node: Credential not found"))
        && Last(t.log) == Publish(Event(GoogleGeminiChannel, nodeID, Error))
        && forall req :: Invoke(Generate(req)) !in t.log
  {
  }

  /** The model is called only for a configured node, inside step
      "gemini-generate-text", with the default system prompt and model filled in. */
  lemma GenerationRequest(data: AiNodeData, nodeID: string, userID: string, ctx: Context, svc: Services, req: Generation)
    requires Invoke(Generate(req)) in GeminiRun(data, nodeID, userID, ctx, svc).log
    ensures Configured(data)
    ensures req.provider == Google && req.model == OrElse(data.model, DefaultModel)
    ensures SystemPrompt(data.systemPrompt, ctx, svc.render) == Returned(req.system)
    ensures svc.render(data.userPrompt.value, ctx) == Returned(req.prompt)
    ensures EnterStep("gemini-generate-text") in GeminiRun(data, nodeID, userID, ctx, svc).log
  {
  }

  /** A successful run ends with "success" and sets only the variable's key, to
      the text read with optional chaining from the model's answer. */
  lemma SuccessSetsText(data: AiNodeData, nodeID: string, userID: string, ctx: Context, svc: Services)
    requires GeminiRun(data, nodeID, userID, ctx, svc).outcome.Done?
    ensures var t := GeminiRun(data, nodeID, userID, ctx, svc);
      && Configured(data)
      && Last(t.log) == Publish(Event(GoogleGeminiChannel, nodeID, Success))
      && exists req :: Invoke(Generate(req)) in t.log && svc.generate(req).Returned?
           && t.outcome.ctx == WithText(ctx, data.variableName.value, OptionalFirstText(svc.generate(req).value))
  {
  }

  /** A failing generation publishes "error" and re-throws the same error. */
  lemma GenerationFailureRethrown(data: AiNodeData, nodeID: string, userID: string, ctx: Context, svc: Services, req: Generation)
    requires Invoke(Generate(req)) in GeminiRun(data, nodeID, userID, ctx, svc).log
    requires svc.generate(req).Raised?
    ensures var t := GeminiRun(data, nodeID, userID, ctx, svc);
      t.outcome == Threw(ServiceError(svc.generate(req).message))
      && Last(t.log) == Publish(Event(GoogleGeminiChannel, nodeID, Error))
  {
  }

  /** A failure before the generation block (lookup, rendering, decryption)
      propagates without any "error" event. */
  lemma EarlyFailureSilent(data: AiNodeData, nodeID: string, userID: string, ctx: Context, svc: Services)
    requires GeminiRun(data, nodeID, userID, ctx, svc).outcome.Threw?
    requires GeminiRun(data, nodeID, userID, ctx, svc).outcome.error.ServiceError?
    requires forall req :: Invoke(Generate(req)) !in GeminiRun(data, nodeID, userID, ctx, svc).log
    ensures Publish(Event(GoogleGeminiChannel, nodeID, Error)) !in GeminiRun(data, nodeID, userID, ctx, svc).log
  {
  }

  /** `googleGeminiExecutor` against a runtime that records its effects. */
  method Execute(rt: Runtime, data: AiNodeData, nodeID: string, userID: string, ctx: Context, svc: Services)
    returns (r: Outcome)
    modifies rt
    ensures rt.log == old(rt.log) + GeminiRun(data, nodeID, userID, ctx, svc).log
    ensures r == GeminiRun(data, nodeID, userID, ctx, svc).outcome
  {
    ghost var start := rt.log;
    ghost var t := GeminiRun(data, nodeID, userID, ctx, svc);
    var loading := Publish(Event(GoogleGeminiChannel, nodeID, Loading));
    var error := Publish(Event(GoogleGeminiChannel, nodeID, Error));
    rt.Publish(GoogleGeminiChannel, nodeID, Loading);

    if !Truthy(data.variableName) {
      rt.Publish(GoogleGeminiChannel, nodeID, Error);
      return Threw(NonRetriableError("Gemini node: Variable name is missing"));
    }
    if !Truthy(data.credentialID) {
      rt.Publish(GoogleGeminiChannel, nodeID, Error);
      return Threw(NonRetriableError("Gemini node: Credential is missing"));
    }
    if !Truthy(data.userPrompt) {
      rt.Publish(GoogleGeminiChannel, nodeID, Error);
      return Threw(NonRetriableError("Gemini node: User prompt is missing"));
    }

    var step := EnterStep("get-credential");
    var find := Invoke(FindCredential(data.credentialID.value, userID));
    rt.EnterStep("get-credential");
    rt.Invoke(FindCredential(data.credentialID.value, userID));
    assert rt.log == start + [loading, step, find];
    var lookup := svc.findCredential(data.credentialID.value, userID);
    if lookup.Raised? {
      assert t == Trace([loading, step, find], Threw(ServiceError(lookup.message)));
      return Threw(ServiceError(lookup.message));
    }
    if lookup.value.None? {
      rt.Publish(GoogleGeminiChannel, nodeID, Error);
      assert t == Trace([loading, step, find, error], Threw(NonRetriableError("Gemini node: Credential not found")));
      return Threw(NonRetriableError("Gemini node: Credential not found"));
    }
    var credential := lookup.value.value;

    var system := SystemPrompt(data.systemPrompt, ctx, svc.render);
    if system.Raised? {
      assert t == Trace([loading, step, find], Threw(ServiceError(system.message)));
      return Threw(ServiceError(system.message));
    }
    var prompt := svc.render(data.userPrompt.value, ctx);
    if prompt.Raised? {
      assert t == Trace([loading, step, find], Threw(ServiceError(prompt.message)));
      return Threw(ServiceError(prompt.message));
    }
    var apiKey := svc.decrypt(credential.value);
    if apiKey.Raised? {
      assert t == Trace([loading, step, find], Threw(ServiceError(apiKey.message)));
      return Threw(ServiceError(apiKey.message));
    }

    // try {
    var req := Generation(Google, apiKey.value, OrElse(data.model, DefaultModel), system.value, prompt.value);
    var wrap := EnterStep("gemini-generate-text");
    var call := Invoke(Generate(req));
    rt.EnterStep("gemini-generate-text");
    rt.Invoke(Generate(req));
    assert rt.log == start + [loading, step, find, wrap, call];
    var generated := svc.generate(req);
    if generated.Raised? {
      // } catch (error) {
      rt.Publish(GoogleGeminiChannel, nodeID, Error);
      assert t == Trace([loading, step, find, wrap, call, error], Threw(ServiceError(generated.message)));
      return Threw(ServiceError(generated.message));
    }
    var text := OptionalFirstText(generated.value);
    var success := Publish(Event(GoogleGeminiChannel, nodeID, Success));
    rt.Publish(GoogleGeminiChannel, nodeID, Success);
    assert t == Trace([loading, step, find, wrap, call, success], Done(WithText(ctx, data.variableName.value, text)));
    return Done(WithText(ctx, data.variableName.value, text));
  }
}
