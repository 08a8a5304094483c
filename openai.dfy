/** `OpenAIExecutor`: the Gemini executor's shape with its own validation order
    and default model, and a text read without optional chaining. */
module OpenAIExecutor {
  import opened Wrappers
  import opened Strings
  import opened Values
  import opened Execution
  import opened AiText
  import GeminiExecutor

  const DefaultModel := "gpt-5"

  /** Everything the executor does and its outcome, given what the services return. */
  function OpenAIRun(data: AiNodeData, nodeID: string, userID: string, ctx: Context, svc: Services): (t: Trace)
    // The first effect is the "loading" event, and every event is this node's.
    ensures |t.log| >= 2 && t.log[0] == Publish(Event(OpenAIChannel, nodeID, Loading))
    ensures EventsFor(t.log, OpenAIChannel, nodeID)
    // Validation order: variableName, then userPrompt, then credentialID.
    ensures !Truthy(data.variableName) ==> t == Rejected(OpenAIChannel, nodeID, "OpenAI node: Variable name is missing")
    ensures Truthy(data.variableName) && !Truthy(data.userPrompt) ==>
              t == Rejected(OpenAIChannel, nodeID, "OpenAI node: User prompt is missing")
    ensures Truthy(data.variableName) && Truthy(data.userPrompt) && !Truthy(data.credentialID) ==>
              t == Rejected(OpenAIChannel, nodeID, "OpenAI node: Credential is missing")
  {
    var loading := Publish(Event(OpenAIChannel, nodeID, Loading));
    var error := Publish(Event(OpenAIChannel, nodeID, Error));
    if !Truthy(data.variableName) then Rejected(OpenAIChannel, nodeID, "OpenAI node: Variable name is missing")
    else if !Truthy(data.userPrompt) then Rejected(OpenAIChannel, nodeID, "OpenAI node: User prompt is missing")
    else if !Truthy(data.credentialID) then Rejected(OpenAIChannel, nodeID, "OpenAI node: Credential is missing")
    else
      var step := EnterStep("get-credential");
      var find := Invoke(FindCredential(data.credentialID.value, userID));
      var lookup := [loading, step, find];
      match svc.findCredential(data.credentialID.value, userID)
      case Raised(m) => Trace(lookup, Threw(ServiceError(m)))
      case Returned(None) => Trace([loading, step, find, error], Threw(NonRetriableError("OpenAI node: Credential not found")))
      case Returned(Some(credential)) =>
        match SystemPrompt(data.systemPrompt, ctx, svc.render)
        case Raised(m) => Trace(lookup, Threw(ServiceError(m)))
        case Returned(system) =>
          match svc.render(data.userPrompt.value, ctx)
          case Raised(m) => Trace(lookup, Threw(ServiceError(m)))
          case Returned(prompt) =>
            match svc.decrypt(credential.value)
            case Raised(m) => Trace(lookup, Threw(ServiceError(m)))
            case Returned(apiKey) =>
              var req := Generation(OpenAI, apiKey, OrElse(data.model, DefaultModel), system, prompt);
              var wrap := EnterStep("openai-generate-text");
              var call := Invoke(Generate(req));
              match svc.generate(req)
              case Raised(m) => Trace([loading, step, find, wrap, call, error], Threw(ServiceError(m)))
              case Returned(steps) =>
                match FirstText(steps)
                case Err(e) => Trace([loading, step, find, wrap, call, error], Threw(e))
                case Ok(text) =>
                  Trace([loading, step, find, wrap, call, Publish(Event(OpenAIChannel, nodeID, Success))],
                        Done(WithText(ctx, data.variableName.value, text)))
  }

  /** The credential is looked up, inside step "get-credential", by its id and
      the running user, and a missing row ends the run before any model call. */
  lemma CredentialScoped(data: AiNodeData, nodeID: string, userID: string, ctx: Context, svc: Services)
    requires Configured(data)
    ensures var t := OpenAIRun(data, nodeID, userID, ctx, svc);
      |t.log| >= 3 && t.log[1] == EnterStep("get-credential") && t.log[2] == Invoke(FindCredential(data.credentialID.value, userID))
    ensures var t := OpenAIRun(data, nodeID, userID, ctx, svc);
      svc.findCredential(data.credentialID.value, userID) == Returned(None) ==>
        && t.outcome == Threw(NonRetriableError("OpenAI node: Credential not found"))
        && Last(t.log) == Publish(Event(OpenAIChannel, nodeID, Error))
        && forall req :: Invoke(Generate(req)) !in t.log
  {
  }

  /** The model is called only for a configured node, inside step
      "openai-generate-text", with the default system prompt and model filled in. */
  lemma GenerationRequest(data: AiNodeData, nodeID: string, userID: string, ctx: Context, svc: Services, req: Generation)
    requires Invoke(Generate(req)) in OpenAIRun(data, nodeID, userID, ctx, svc).log
    ensures Configured(data)
    ensures req.provider == OpenAI && req.model == OrElse(data.model, DefaultModel)
    ensures SystemPrompt(data.systemPrompt, ctx, svc.render) == Returned(req.system)
    ensures svc.render(data.userPrompt.value, ctx) == Returned(req.prompt)
    ensures EnterStep("openai-generate-text") in OpenAIRun(data, nodeID, userID, ctx, svc).log
  {
  }

  /** A successful run ends with "success" and sets only the variable's key, to
      the text of the answer's first content part. */
  lemma SuccessSetsText(data: AiNodeData, nodeID: string, userID: string, ctx: Context, svc: Services)
    requires OpenAIRun(data, nodeID, userID, ctx, svc).outcome.Done?
    ensures var t := OpenAIRun(data, nodeID, userID, ctx, svc);
      && Configured(data)
      && Last(t.log) == Publish(Event(OpenAIChannel, nodeID, Success))
      && exists req :: Invoke(Generate(req)) in t.log && svc.generate(req).Returned?
           && FirstText(svc.generate(req).value).Ok?
           && t.outcome.ctx == WithText(ctx, data.variableName.value, OptionalFirstText(svc.generate(req).value))
  {
  }

  /** A failing generation, and an answer without a first content part (read
      without optional chaining), publish "error" and throw out of the `catch`. */
  lemma GenerationFailureRethrown(data: AiNodeData, nodeID: string, userID: string, ctx: Context, svc: Services, req: Generation)
    requires Invoke(Generate(req)) in OpenAIRun(data, nodeID, userID, ctx, svc).log
    ensures var t := OpenAIRun(data, nodeID, userID, ctx, svc);
      svc.generate(req).Raised? ==>
        t.outcome == Threw(ServiceError(svc.generate(req).message))
        && Last(t.log) == Publish(Event(OpenAIChannel, nodeID, Error))
    ensures var t := OpenAIRun(data, nodeID, userID, ctx, svc);
      svc.generate(req).Returned? && (|svc.generate(req).value| == 0 || |svc.generate(req).value[0].content| == 0) ==>
        t.outcome == Threw(TypeError)
        && Last(t.log) == Publish(Event(OpenAIChannel, nodeID, Error))
  {
  }

  /** A failure before the generation block (lookup, rendering, decryption)
      propagates without any "error" event. */
  lemma EarlyFailureSilent(data: AiNodeData, nodeID: string, userID: string, ctx: Context, svc: Services)
    requires OpenAIRun(data, nodeID, userID, ctx, svc).outcome.Threw?
    requires OpenAIRun(data, nodeID, userID, ctx, svc).outcome.error.ServiceError?
    requires forall req :: Invoke(Generate(req)) !in OpenAIRun(data, nodeID, userID, ctx, svc).log
    ensures Publish(Event(OpenAIChannel, nodeID, Error)) !in OpenAIRun(data, nodeID, userID, ctx, svc).log
  {
  }

  /** The two executors check the same fields in different orders: a node with
      a variable name but neither credential nor user prompt is refused for the
      credential by Gemini and for the prompt by OpenAI. */
  lemma ValidationOrderDiffers(data: AiNodeData, nodeID: string, userID: string, ctx: Context, svc: Services)
    requires Truthy(data.variableName) && !Truthy(data.credentialID) && !Truthy(data.userPrompt)
    ensures GeminiExecutor.GeminiRun(data, nodeID, userID, ctx, svc).outcome
              == Threw(NonRetriableError("Gemini node: Credential is missing"))
    ensures OpenAIRun(data, nodeID, userID, ctx, svc).outcome
              == Threw(NonRetriableError("OpenAI node: User prompt is missing"))
  {
  }

  /** On an answer both can read, the two executors store the same text; on a
      malformed answer Gemini stores "" where OpenAI throws. */
  lemma TextReadsAgree(steps: seq<GenStep>)
    ensures FirstText(steps).Ok? ==> FirstText(steps).value == OptionalFirstText(steps)
    ensures FirstText(steps).Err? ==> OptionalFirstText(steps) == ""
  {
  }

  /** `OpenAIExecutor` against a runtime that records its effects. */
  method Execute(rt: Runtime, data: AiNodeData, nodeID: string, userID: string, ctx: Context, svc: Services)
    returns (r: Outcome)
    modifies rt
    ensures rt.log == old(rt.log) + OpenAIRun(data, nodeID, userID, ctx, svc).log
    ensures r == OpenAIRun(data, nodeID, userID, ctx, svc).outcome
  {
    ghost var start := rt.log;
    ghost var t := OpenAIRun(data, nodeID, userID, ctx, svc);
    var loading := Publish(Event(OpenAIChannel, nodeID, Loading));
    var error := Publish(Event(OpenAIChannel, nodeID, Error));
    rt.Publish(OpenAIChannel, nodeID, Loading);

    if !Truthy(data.variableName) {
      rt.Publish(OpenAIChannel, nodeID, Error);
      return Threw(NonRetriableError("OpenAI node: Variable name is missing"));
    }
    if !Truthy(data.userPrompt) {
      rt.Publish(OpenAIChannel, nodeID, Error);
      return Threw(NonRetriableError("OpenAI node: User prompt is missing"));
    }
    if !Truthy(data.credentialID) {
      rt.Publish(OpenAIChannel, nodeID, Error);
      return Threw(NonRetriableError("OpenAI node: Credential is missing"));
    }

    var step := EnterStep("get-credential");
    var find := Invoke(FindCredential(data.credentialID.value, userID));
    rt.EnterStep("get-credential");
    rt.Invoke(FindCredential(data.credentialID.value, userID));
    assert rt.log == start + [loading, step, find];
    var lookup := svc.findCredential(data.credentialID.value, userID);
    if lookup.Raised? {
      assert t == Trace([loading, step, find], Threw(ServiceError(lookup.message)));
      return Threw(ServiceError(lookup.message));
    }
    if lookup.value.None? {
      rt.Publish(OpenAIChannel, nodeID, Error);
      assert t == Trace([loading, step, find, error], Threw(NonRetriableError("OpenAI node: Credential not found")));
      return Threw(NonRetriableError("OpenAI node: Credential not found"));
    }
    var credential := lookup.value.value;

    var system := SystemPrompt(data.systemPrompt, ctx, svc.render);
    if system.Raised? {
      assert t == Trace([loading, step, find], Threw(ServiceError(system.message)));
      return Threw(ServiceError(system.message));
    }
    var prompt := svc.render(data.userPrompt.value, ctx);
    if prompt.Raised? {
      assert t == Trace([loading, step, find], Threw(ServiceError(prompt.message)));
      return Threw(ServiceError(prompt.message));
    }
    var apiKey := svc.decrypt(credential.value);
    if apiKey.Raised? {
      assert t == Trace([loading, step, find], Threw(ServiceError(apiKey.message)));
      return Threw(ServiceError(apiKey.message));
    }

    // try {
    var req := Generation(OpenAI, apiKey.value, OrElse(data.model, DefaultModel), system.value, prompt.value);
    var wrap := EnterStep("openai-generate-text");
    var call := Invoke(Generate(req));
    rt.EnterStep("openai-generate-text");
    rt.Invoke(Generate(req));
    assert rt.log == start + [loading, step, find, wrap, call];
    var generated := svc.generate(req);
    if generated.Raised? {
      // } catch (error) {
      rt.Publish(OpenAIChannel, nodeID, Error);
      assert t == Trace([loading, step, find, wrap, call, error], Threw(ServiceError(generated.message)));
      return Threw(ServiceError(generated.message));
    }
    var text := FirstText(generated.value);
    if text.Err? {
      // } catch (error) {
      rt.Publish(OpenAIChannel, nodeID, Error);
      assert t == Trace([loading, step, find, wrap, call, error], Threw(text.error));
      return Threw(text.error);
    }
    var success := Publish(Event(OpenAIChannel, nodeID, Success));
    rt.Publish(OpenAIChannel, nodeID, Success);
    assert t == Trace([loading, step, find, wrap, call, success], Done(WithText(ctx, data.variableName.value, text.value)));
    return Done(WithText(ctx, data.variableName.value, text.value));
  }
}
