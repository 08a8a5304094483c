/** `DiscordExecutor`: render and decode the message, then inside step
    "discord-webhook" check the remaining fields and post at most 2000
    characters to the webhook. */
module DiscordExecutor {
  import opened Wrappers
  import opened Strings
  import opened Values
  import opened Execution

  /** The node data the executor reads; every field may be absent. */
  datatype DiscordData = DiscordData(
    variableName: Option<string>,
    webhookURL: Option<string>,
    content: Option<string>,
    username: Option<string>)

  /** Discord's message length limit. */
  const MaxLength := 2000

  /** The message text, given the decoded content: `content.slice(0, 2000)`. */
  function Clip(content: string): (r: string)
    ensures |r| <= MaxLength
    ensures |content| <= MaxLength ==> r == content
    ensures |content| > MaxLength ==> |r| == MaxLength
    ensures r == content[..|r|]
  {
    Take(content, MaxLength)
  }

  /** `data.username ? decode(Handlebars.compile(data.username)(context)) : undefined` */
  function Username(username: Option<string>, ctx: Context, svc: Services): (r: Call<Option<string>>)
    ensures !Truthy(username) ==> r == Returned(None)
    ensures Truthy(username) && svc.render(username.value, ctx).Returned? ==>
              r == Returned(Some(svc.decode(svc.render(username.value, ctx).value)))
    ensures Truthy(username) && svc.render(username.value, ctx).Raised? ==> r.Raised?
  {
    if Truthy(username) then
      match svc.render(username.value, ctx)
      case Raised(m) => Raised(m)
      case Returned(raw) => Returned(Some(svc.decode(raw)))
    else Returned(None)
  }

  /** The decoded message content, when rendering succeeds. */
  function Decoded(data: DiscordData, ctx: Context, svc: Services): Option<string>
    requires Truthy(data.content)
  {
    match svc.render(data.content.value, ctx)
    case Raised(_) => None
    case Returned(raw) => Some(svc.decode(raw))
  }

  /** Everything the executor does and its outcome, given what the services return. */
  function DiscordRun(data: DiscordData, nodeID: string, ctx: Context, svc: Services): (t: Trace)
    // The first effect is the "loading" event, and every event is this node's.
    ensures |t.log| >= 1 && t.log[0] == Publish(Event(DiscordChannel, nodeID, Loading))
    ensures EventsFor(t.log, DiscordChannel, nodeID)
    // Missing content is refused before any rendering or step.
    ensures !Truthy(data.content) ==> t == Rejected(DiscordChannel, nodeID, "Discord node: Message content is required")
    // Whatever is posted, and whatever is stored, is the clipped decoded content.
    ensures forall url, m :: Invoke(PostWebhook(url, m)) in t.log ==>
              && Truthy(data.content) && Truthy(data.variableName) && Some(url) == data.webhookURL
              && Decoded(data, ctx, svc).Some? && m.content == Clip(Decoded(data, ctx, svc).value)
              && Username(data.username, ctx, svc) == Returned(m.username)
  {
    var loading := Publish(Event(DiscordChannel, nodeID, Loading));
    var error := Publish(Event(DiscordChannel, nodeID, Error));
    if !Truthy(data.content) then Rejected(DiscordChannel, nodeID, "Discord node: Message content is required")
    else
      match svc.render(data.content.value, ctx)
      case Raised(m) => Trace([loading], Threw(ServiceError(m)))
      case Returned(raw) =>
        var content := svc.decode(raw);
        match Username(data.username, ctx, svc)
        case Raised(m) => Trace([loading], Threw(ServiceError(m)))
        case Returned(username) =>
          var step := EnterStep("discord-webhook");
          // inside the step; the outer `catch` publishes "error" again and re-throws
          if !Truthy(data.variableName) then
            Trace([loading, step, error, error], Threw(NonRetriableError("Discord node: Variable name is missing")))
          else if !Truthy(data.webhookURL) then
            Trace([loading, step, error, error], Threw(NonRetriableError("Discord node: Webhook URL is missing")))
          else
            var message := Message(Clip(content), username);
            var post := Invoke(PostWebhook(data.webhookURL.value, message));
            match svc.post(data.webhookURL.value, message)
            case Raised(m) => Trace([loading, step, post, error], Threw(ServiceError(m)))
            case Returned(_) =>
              Trace([loading, step, post, Publish(Event(DiscordChannel, nodeID, Success))],
                    Done(WithMessageContent(ctx, data.variableName.value, Clip(content))))
  }

  /** A missing variable name or webhook URL is caught inside the step: the
      run publishes "error" twice, once in the step and once in the outer
      `catch`, and posts nothing. */
  lemma StepValidationErrorsTwice(data: DiscordData, nodeID: string, ctx: Context, svc: Services)
    requires Truthy(data.content) && Decoded(data, ctx, svc).Some? && Username(data.username, ctx, svc).Returned?
    requires !Truthy(data.variableName) || !Truthy(data.webhookURL)
    ensures var t := DiscordRun(data, nodeID, ctx, svc);
      && t.log == [Publish(Event(DiscordChannel, nodeID, Loading)), EnterStep("discord-webhook"),
                   Publish(Event(DiscordChannel, nodeID, Error)), Publish(Event(DiscordChannel, nodeID, Error))]
      && t.outcome == Threw(NonRetriableError(
           if !Truthy(data.variableName) then "Discord node: Variable name is missing"
           else "Discord node: Webhook URL is missing"))
  {
  }

  /** A successful run posts once, then publishes "success", and sets only the
      variable's key, to the same clipped content it posted. */
  lemma SuccessStoresPostedContent(data: DiscordData, nodeID: string, ctx: Context, svc: Services)
    requires DiscordRun(data, nodeID, ctx, svc).outcome.Done?
    ensures var t := DiscordRun(data, nodeID, ctx, svc);
      && Truthy(data.content) && Truthy(data.variableName) && Decoded(data, ctx, svc).Some?
      && Last(t.log) == Publish(Event(DiscordChannel, nodeID, Success))
      && t.log[1] == EnterStep("discord-webhook")
      && t.outcome.ctx == WithMessageContent(ctx, data.variableName.value, Clip(Decoded(data, ctx, svc).value))
      && |Clip(Decoded(data, ctx, svc).value)| <= MaxLength
  {
  }

  /** A failed post publishes "error" once and re-throws the same error. */
  lemma PostFailureRethrown(data: DiscordData, nodeID: string, ctx: Context, svc: Services, url: string, m: Message)
    requires Invoke(PostWebhook(url, m)) in DiscordRun(data, nodeID, ctx, svc).log
    requires svc.post(url, m).Raised?
    ensures var t := DiscordRun(data, nodeID, ctx, svc);
      t.outcome == Threw(ServiceError(svc.post(url, m).message))
      && t.log[3..] == [Publish(Event(DiscordChannel, nodeID, Error))]
  {
  }

  /** `DiscordExecutor` against a runtime that records its effects. */
  method Execute(rt: Runtime, data: DiscordData, nodeID: string, ctx: Context, svc: Services)
    returns (r: Outcome)
    modifies rt
    ensures rt.log == old(rt.log) + DiscordRun(data, nodeID, ctx, svc).log
    ensures r == DiscordRun(data, nodeID, ctx, svc).outcome
  {
    ghost var start := rt.log;
    ghost var t := DiscordRun(data, nodeID, ctx, svc);
    var loading := Publish(Event(DiscordChannel, nodeID, Loading));
    var error := Publish(Event(DiscordChannel, nodeID, Error));
    rt.Publish(DiscordChannel, nodeID, Loading);

    if !Truthy(data.content) {
      rt.Publish(DiscordChannel, nodeID, Error);
      return Threw(NonRetriableError("Discord node: Message content is required"));
    }

    var rawContent := svc.render(data.content.value, ctx);
    if rawContent.Raised? {
      assert t == Trace([loading], Threw(ServiceError(rawContent.message)));
      return Threw(ServiceError(rawContent.message));
    }
    var content := svc.decode(rawContent.value);
    var username := Username(data.username, ctx, svc);
    if username.Raised? {
      assert t == Trace([loading], Threw(ServiceError(username.message)));
      return Threw(ServiceError(username.message));
    }

    // try {
    var step := EnterStep("discord-webhook");
    rt.EnterStep("discord-webhook");
    if !Truthy(data.variableName) {
      rt.Publish(DiscordChannel, nodeID, Error);
      // } catch (error) {
      rt.Publish(DiscordChannel, nodeID, Error);
      assert rt.log == start + [loading, step, error, error];
      return Threw(NonRetriableError("Discord node: Variable name is missing"));
    }
    if !Truthy(data.webhookURL) {
      rt.Publish(DiscordChannel, nodeID, Error);
      // } catch (error) {
      rt.Publish(DiscordChannel, nodeID, Error);
      assert rt.log == start + [loading, step, error, error];
      return Threw(NonRetriableError("Discord node: Webhook URL is missing"));
    }
    var message := Message(Clip(content), username.value);
    var post := Invoke(PostWebhook(data.webhookURL.value, message));
    rt.Invoke(PostWebhook(data.webhookURL.value, message));
    var posted := svc.post(data.webhookURL.value, message);
    if posted.Raised? {
      // } catch (error) {
      rt.Publish(DiscordChannel, nodeID, Error);
      assert t == Trace([loading, step, post, error], Threw(ServiceError(posted.message)));
      return Threw(ServiceError(posted.message));
    }
    var result := WithMessageContent(ctx, data.variableName.value, Clip(content));
    var success := Publish(Event(DiscordChannel, nodeID, Success));
    rt.Publish(DiscordChannel, nodeID, Success);
    assert t == Trace([loading, step, post, success], Done(result));
    return Done(result);
  }
}
