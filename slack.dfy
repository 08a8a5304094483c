/** `SlackExecutor`: render and decode the message, then inside step
    "slack-webhook" check the remaining fields and post the whole content. */
module SlackExecutor {
  import opened Wrappers
  import opened Strings
  import opened Values
  import opened Execution
  import DiscordExecutor

  /** The node data the executor reads; every field may be absent. */
  datatype SlackData = SlackData(
    variableName: Option<string>,
    webhookURL: Option<string>,
    content: Option<string>)

  /** The decoded message content, when rendering succeeds. */
  function Decoded(data: SlackData, ctx: Context, svc: Services): Option<string>
    requires Truthy(data.content)
  {
    match svc.render(data.content.value, ctx)
    case Raised(_) => None
    case Returned(raw) => Some(svc.decode(raw))
  }

  /** Everything the executor does and its outcome, given what the services return. */
  function SlackRun(data: SlackData, nodeID: string, ctx: Context, svc: Services): (t: Trace)
    // The first effect is the "loading" event, and every event is this node's.
    ensures |t.log| >= 1 && t.log[0] == Publish(Event(SlackChannel, nodeID, Loading))
    ensures EventsFor(t.log, SlackChannel, nodeID)
    // Missing content is refused before any rendering or step.
    ensures !Truthy(data.content) ==> t == Rejected(SlackChannel, nodeID, "Slack node: Message content is required")
    // The posted message is the whole decoded content, with no username.
    ensures forall url, m :: Invoke(PostWebhook(url, m)) in t.log ==>
              && Truthy(data.content) && Truthy(data.variableName) && Some(url) == data.webhookURL
              && Decoded(data, ctx, svc).Some? && m == Message(Decoded(data, ctx, svc).value, None)
  {
    var loading := Publish(Event(SlackChannel, nodeID, Loading));
    var error := Publish(Event(SlackChannel, nodeID, Error));
    if !Truthy(data.content) then Rejected(SlackChannel, nodeID, "Slack node: Message content is required")
    else
      match svc.render(data.content.value, ctx)
      case Raised(m) => Trace([loading], Threw(ServiceError(m)))
      case Returned(raw) =>
        var content := svc.decode(raw);
        var step := EnterStep("slack-webhook");
        // inside the step; the outer `catch` publishes "error" again and re-throws
        if !Truthy(data.variableName) then
          Trace([loading, step, error, error], Threw(NonRetriableError("Slack node: Variable name is missing")))
        else if !Truthy(data.webhookURL) then
          Trace([loading, step, error, error], Threw(NonRetriableError("Slack node: Webhook URL is missing")))
        else
          var message := Message(content, None);
          var post := Invoke(PostWebhook(data.webhookURL.value, message));
          match svc.post(data.webhookURL.value, message)
          case Raised(m) => Trace([loading, step, post, error], Threw(ServiceError(m)))
          case Returned(_) =>
            Trace([loading, step, post, Publish(Event(SlackChannel, nodeID, Success))],
                  Done(WithMessageContent(ctx, data.variableName.value, content)))
  }

  /** A missing variable name or webhook URL is caught inside the step: the
      run publishes "error" twice and posts nothing. */
  lemma StepValidationErrorsTwice(data: SlackData, nodeID: string, ctx: Context, svc: Services)
    requires Truthy(data.content) && Decoded(data, ctx, svc).Some?
    requires !Truthy(data.variableName) || !Truthy(data.webhookURL)
    ensures var t := SlackRun(data, nodeID, ctx, svc);
      && t.log == [Publish(Event(SlackChannel, nodeID, Loading)), EnterStep("slack-webhook"),
                   Publish(Event(SlackChannel, nodeID, Error)), Publish(Event(SlackChannel, nodeID, Error))]
      && t.outcome == Threw(NonRetriableError(
           if !Truthy(data.variableName) then "Slack node: Variable name is missing"
           else "Slack node: Webhook URL is missing"))
  {
  }

  /** A successful run posts once, then publishes "success", and stores the
      whole decoded content under the variable's key. */
  lemma SuccessStoresPostedContent(data: SlackData, nodeID: string, ctx: Context, svc: Services)
    requires SlackRun(data, nodeID, ctx, svc).outcome.Done?
    ensures var t := SlackRun(data, nodeID, ctx, svc);
      && Truthy(data.content) && Truthy(data.variableName) && Decoded(data, ctx, svc).Some?
      && Last(t.log) == Publish(Event(SlackChannel, nodeID, Success))
      && t.log[1] == EnterStep("slack-webhook")
      && t.outcome.ctx == WithMessageContent(ctx, data.variableName.value, Decoded(data, ctx, svc).value)
  {
  }

  /** A failed post publishes "error" once and re-throws the same error. */
  lemma PostFailureRethrown(data: SlackData, nodeID: string, ctx: Context, svc: Services, url: string, m: Message)
    requires Invoke(PostWebhook(url, m)) in SlackRun(data, nodeID, ctx, svc).log
    requires svc.post(url, m).Raised?
    ensures var t := SlackRun(data, nodeID, ctx, svc);
      t.outcome == Threw(ServiceError(svc.post(url, m).message))
      && t.log[3..] == [Publish(Event(SlackChannel, nodeID, Error))]
  {
  }

  /** The same node data as a Discord node without a username. */
  function AsDiscord(data: SlackData): DiscordExecutor.DiscordData {
    DiscordExecutor.DiscordData(data.variableName, data.webhookURL, data.content, None)
  }

  /** Slack and Discord store the same content exactly when it fits in a Discord
      message; otherwise Discord stores its first 2000 characters. */
  lemma DiscordClipsWhereSlackDoesNot(data: SlackData, nodeID: string, ctx: Context, svc: Services)
    requires SlackRun(data, nodeID, ctx, svc).outcome.Done?
    requires DiscordExecutor.DiscordRun(AsDiscord(data), nodeID, ctx, svc).outcome.Done?
    ensures var slack := SlackRun(data, nodeID, ctx, svc).outcome.ctx[data.variableName.value];
            var discord := DiscordExecutor.DiscordRun(AsDiscord(data), nodeID, ctx, svc).outcome.ctx[data.variableName.value];
      && slack.Obj? && discord.Obj? && "messageContent" in slack.fields && "messageContent" in discord.fields
      && slack.fields["messageContent"].Str? && discord.fields["messageContent"].Str?
      && discord.fields["messageContent"].s == DiscordExecutor.Clip(slack.fields["messageContent"].s)
      && (slack == discord <==> |slack.fields["messageContent"].s| <= DiscordExecutor.MaxLength)
  {
    SuccessStoresPostedContent(data, nodeID, ctx, svc);
    DiscordExecutor.SuccessStoresPostedContent(AsDiscord(data), nodeID, ctx, svc);
    var content := Decoded(data, ctx, svc).value;
    assert DiscordExecutor.Decoded(AsDiscord(data), ctx, svc) == Some(content);
    var clipped := DiscordExecutor.Clip(content);
    if |content| > DiscordExecutor.MaxLength {
      assert |clipped| != |content|;
      assert Str(clipped) != Str(content);
      assert Obj(map["messageContent" := Str(clipped)]).fields["messageContent"] != Obj(map["messageContent" := Str(content)]).fields["messageContent"];
    }
  }

  /** `SlackExecutor` against a runtime that records its effects. */
  method Execute(rt: Runtime, data: SlackData, nodeID: string, ctx: Context, svc: Services)
    returns (r: Outcome)
    modifies rt
    ensures rt.log == old(rt.log) + SlackRun(data, nodeID, ctx, svc).log
    ensures r == SlackRun(data, nodeID, ctx, svc).outcome
  {
    ghost var start := rt.log;
    ghost var t := SlackRun(data, nodeID, ctx, svc);
    var loading := Publish(Event(SlackChannel, nodeID, Loading));
    var error := Publish(Event(SlackChannel, nodeID, Error));
    rt.Publish(SlackChannel, nodeID, Loading);

    if !Truthy(data.content) {
      rt.Publish(SlackChannel, nodeID, Error);
      return Threw(NonRetriableError("Slack node: Message content is required"));
    }

    var rawContent := svc.render(data.content.value, ctx);
    if rawContent.Raised? {
      assert t == Trace([loading], Threw(ServiceError(rawContent.message)));
      return Threw(ServiceError(rawContent.message));
    }
    var content := svc.decode(rawContent.value);

    // try {
    var step := EnterStep("slack-webhook");
    rt.EnterStep("slack-webhook");
    if !Truthy(data.variableName) {
      rt.Publish(SlackChannel, nodeID, Error);
      // } catch (error) {
      rt.Publish(SlackChannel, nodeID, Error);
      assert rt.log == start + [loading, step, error, error];
      return Threw(NonRetriableError("Slack node: Variable name is missing"));
    }
    if !Truthy(data.webhookURL) {
      rt.Publish(SlackChannel, nodeID, Error);
      // } catch (error) {
      rt.Publish(SlackChannel, nodeID, Error);
      assert rt.log == start + [loading, step, error, error];
      return Threw(NonRetriableError("Slack node: Webhook URL is missing"));
    }
    var message := Message(content, None);
    var post := Invoke(PostWebhook(data.webhookURL.value, message));
    rt.Invoke(PostWebhook(data.webhookURL.value, message));
    var posted := svc.post(data.webhookURL.value, message);
    if posted.Raised? {
      // } catch (error) {
      rt.Publish(SlackChannel, nodeID, Error);
      assert t == Trace([loading, step, post, error], Threw(ServiceError(posted.message)));
      return Threw(ServiceError(posted.message));
    }
    var result := WithMessageContent(ctx, data.variableName.value, content);
    var success := Publish(Event(SlackChannel, nodeID, Success));
    rt.Publish(SlackChannel, nodeID, Success);
    assert t == Trace([loading, step, post, success], Done(result));
    return Done(result);
  }
}
