/** The node configuration dialogs: each `formSchema` as a validity predicate,
    the default values filled in when the dialog opens (the same expression
    serves `useForm` and the `form.reset` on open), and `handleSubmit`. */
module Dialogs {
  import opened Wrappers
  import opened Strings
  import GeminiExecutor
  import OpenAIExecutor
  import AnthropicExecutor
  import DiscordExecutor
  import HttpRequestExecutor

  // ---------------------------------------------------------------- identifiers

  predicate IsLetter(c: char) { 'A' <= c <= 'Z' || 'a' <= c <= 'z' }
  predicate IsDigit(c: char) { '0' <= c <= '9' }

  /** `[A-Za-z_$]` */
  predicate IsIdentifierStart(c: char) { IsLetter(c) || c == '_' || c == '$' }

  /** `[A-Za-z0-9_$]` */
  predicate IsIdentifierPart(c: char) { IsIdentifierStart(c) || IsDigit(c) }

  /** `[A-Za-z0-9_$]*$`, matched from the left. */
  predicate PartsToEnd(s: string) {
    s == [] || (IsIdentifierPart(s[0]) && PartsToEnd(s[1..]))
  }

  /** `/^[A-Za-z_$][A-Za-z0-9_$]*$/.test(s)` */
  predicate MatchesIdentifier(s: string) {
    s != [] && IsIdentifierStart(s[0]) && PartsToEnd(s[1..])
  }

  /** The `variableName` rule every dialog shares: `.min(1).regex(...)`. */
  predicate ValidVariableName(s: string) {
    |s| >= 1 && MatchesIdentifier(s)
  }

  lemma {:induction false} PartsToEndChars(s: string)
    ensures PartsToEnd(s) <==> forall i :: 0 <= i < |s| ==> IsIdentifierPart(s[i])
    decreases |s|
  {
    if s != [] {
      PartsToEndChars(s[1..]);
      assert forall i :: 1 <= i < |s| ==> s[i] == s[1..][i - 1];
    }
  }

  /** The pattern read character by character: a letter, `_` or `$` first, then
      letters, digits, `_` or `$`; the `min(1)` check adds nothing to it. */
  lemma VariableNameChars(s: string)
    ensures ValidVariableName(s) <==>
              |s| >= 1 && IsIdentifierStart(s[0]) && forall i :: 1 <= i < |s| ==> IsIdentifierPart(s[i])
    ensures ValidVariableName(s) <==> MatchesIdentifier(s)
  {
    if |s| >= 1 {
      PartsToEndChars(s[1..]);
      assert forall i :: 1 <= i < |s| ==> s[i] == s[1..][i - 1];
    }
  }

  /** The error message mentions only letters, digits and underscores, but the
      pattern also accepts `$`, first or later; a leading digit is refused. */
  lemma DollarAccepted()
    ensures ValidVariableName("$") && ValidVariableName("$ctx") && ValidVariableName("my$var")
    ensures !ValidVariableName("1st") && !ValidVariableName("") && !ValidVariableName("my-var")
  {
    assert PartsToEnd("var"[1..]) && PartsToEnd("ctx"[1..]);
    assert !PartsToEnd("-var");
    assert "my-var"[1..] == "y-var" && "y-var"[1..] == "-var";
  }

  // ---------------------------------------------------------------- AI dialogs

  const GeminiModels := ["gemini-2.5-flash", "gemini-2.5-flash-lite", "gemini-3-flash-preview"]
  const OpenAIModels := ["gpt-5.2-pro", "gpt-5.1-codex", "gpt-5", "gpt-5-mini", "gpt-5-nano", "gpt-4.1"]
  const AnthropicModels := ["claude-sonnet-4-5-20250929", "claude-haiku-4-5-20251001", "claude-opus-4-5-20251101"]

  /** The values of the Gemini and OpenAI dialogs. */
  datatype AiValues = AiValues(
    variableName: string,
    credentialID: string,
    model: string,
    systemPrompt: Option<string>,
    userPrompt: string)

  /** The saved node data the dialog opens with (`Partial<...FormValues>`). */
  datatype AiPartial = AiPartial(
    variableName: Option<string>,
    credentialID: Option<string>,
    model: Option<string>,
    systemPrompt: Option<string>,
    userPrompt: Option<string>)

  /** The Gemini and OpenAI schemas, over their own lists of models. */
  predicate AiValid(v: AiValues, models: seq<string>) {
    && ValidVariableName(v.variableName)
    && |v.credentialID| >= 1
    && v.model in models
    && |v.userPrompt| >= 1
  }

  /** A field the dialog opens with, `saved || fallback`: the saved value when
      it is a non-empty string, the fallback otherwise. */
  predicate FilledFrom(saved: Option<string>, shown: string, fallback: string) {
    && (Truthy(saved) ==> shown == saved.value)
    && (!Truthy(saved) ==> shown == fallback)
  }

  /** The values the dialog opens with: `field || ""`, and `model || AVAILABLE_MODELS[0]`. */
  function AiDefaults(p: AiPartial, models: seq<string>): (v: AiValues)
    requires |models| > 0
    ensures FilledFrom(p.variableName, v.variableName, "")
    ensures FilledFrom(p.credentialID, v.credentialID, "")
    ensures FilledFrom(p.model, v.model, models[0])
    ensures v.systemPrompt.Some? && FilledFrom(p.systemPrompt, v.systemPrompt.value, "")
    ensures FilledFrom(p.userPrompt, v.userPrompt, "")
    // The model shown is the saved one or a listed one.
    ensures v.model in models || (p.model.Some? && v.model == p.model.value)
  {
    AiValues(OrElse(p.variableName, ""), OrElse(p.credentialID, ""), OrElse(p.model, models[0]),
             Some(OrElse(p.systemPrompt, "")), OrElse(p.userPrompt, ""))
  }

  /** The saved form of submitted values. */
  function AiSaved(v: AiValues): AiPartial {
    AiPartial(Some(v.variableName), Some(v.credentialID), Some(v.model), v.systemPrompt, Some(v.userPrompt))
  }

  /** Reopening a dialog on values it accepted shows exactly those values. */
  lemma AiDefaultsRoundTrip(v: AiValues, models: seq<string>)
    requires |models| > 0 && "" !in models && AiValid(v, models) && v.systemPrompt.Some?
    ensures AiDefaults(AiSaved(v), models) == v
  {
  }

  /** Whatever the saved data, saving the values the dialog opens with and
      opening again shows the same values. */
  lemma AiDefaultsStable(p: AiPartial, models: seq<string>)
    requires |models| > 0 && models[0] != ""
    ensures AiDefaults(AiSaved(AiDefaults(p, models)), models) == AiDefaults(p, models)
  {
  }

  /** A new node opens on the first model, with every required field empty: the
      form cannot be submitted until they are filled. */
  lemma AiDefaultsOfNewNode(models: seq<string>)
    requires |models| > 0
    ensures var v := AiDefaults(AiPartial(None, None, None, None, None), models);
      v.model == models[0] && v.systemPrompt == Some("") && !AiValid(v, models)
  {
  }

  /** The dialogs' first model and the executors' fallback model: only the
      Anthropic pair agrees. Every executor fallback is one of its dialog's models. */
  lemma DialogAndExecutorDefaults()
    ensures GeminiModels[0] != GeminiExecutor.DefaultModel && GeminiExecutor.DefaultModel in GeminiModels
    ensures OpenAIModels[0] != OpenAIExecutor.DefaultModel && OpenAIExecutor.DefaultModel in OpenAIModels
    ensures AnthropicModels[0] == AnthropicExecutor.DefaultModel
  {
    assert GeminiModels[1] == GeminiExecutor.DefaultModel;
    assert OpenAIModels[2] == OpenAIExecutor.DefaultModel;
  }

  /** The Anthropic dialog's values: no credential field. */
  datatype AnthropicValues = AnthropicValues(
    variableName: string,
    model: string,
    systemPrompt: Option<string>,
    userPrompt: string)

  datatype AnthropicPartial = AnthropicPartial(
    variableName: Option<string>,
    model: Option<string>,
    systemPrompt: Option<string>,
    userPrompt: Option<string>)

  predicate AnthropicValid(v: AnthropicValues) {
    ValidVariableName(v.variableName) && v.model in AnthropicModels && |v.userPrompt| >= 1
  }

  /** `field || ""`, and `model || AVAILABLE_MODELS[0]`, which is the executor's fallback model. */
  function AnthropicDefaults(p: AnthropicPartial): (v: AnthropicValues)
    ensures FilledFrom(p.variableName, v.variableName, "")
    ensures FilledFrom(p.model, v.model, AnthropicModels[0])
    ensures !Truthy(p.model) ==> v.model == AnthropicExecutor.DefaultModel
    ensures v.systemPrompt.Some? && FilledFrom(p.systemPrompt, v.systemPrompt.value, "")
    ensures FilledFrom(p.userPrompt, v.userPrompt, "")
  {
    AnthropicValues(OrElse(p.variableName, ""), OrElse(p.model, AnthropicModels[0]),
                    Some(OrElse(p.systemPrompt, "")), OrElse(p.userPrompt, ""))
  }

  /** Reopening on the values the dialog opened with shows them again. */
  lemma AnthropicDefaultsStable(p: AnthropicPartial)
    ensures var v := AnthropicDefaults(p);
      AnthropicDefaults(AnthropicPartial(Some(v.variableName), Some(v.model), v.systemPrompt, Some(v.userPrompt))) == v
  {
  }

  /** A new node opens on the executor's model with the other fields empty, and cannot be submitted as it is. */
  lemma AnthropicDefaultsOfNewNode()
    ensures var v := AnthropicDefaults(AnthropicPartial(None, None, None, None));
      v == AnthropicValues("", AnthropicExecutor.DefaultModel, Some(""), "") && !AnthropicValid(v)
  {
  }

  lemma AnthropicDefaultsRoundTrip(v: AnthropicValues)
    requires AnthropicValid(v) && v.systemPrompt.Some?
    ensures AnthropicDefaults(AnthropicPartial(Some(v.variableName), Some(v.model), v.systemPrompt, Some(v.userPrompt))) == v
  {
  }

  // ---------------------------------------------------------------- HTTP request dialog

  const HttpMethods := ["GET", "POST", "PUT", "PATCH", "DELETE"]

  datatype HttpValues = HttpValues(variableName: string, endpoint: string, httpMethod: string, body: Option<string>)
  datatype HttpPartial = HttpPartial(variableName: Option<string>, endpoint: Option<string>,
                                     httpMethod: Option<string>, body: Option<string>)

  predicate HttpValid(v: HttpValues) {
    ValidVariableName(v.variableName) && |v.endpoint| >= 1 && v.httpMethod in HttpMethods
  }

  /** `field || ""`, and `method || "GET"`, the executor's own default. */
  function HttpDefaults(p: HttpPartial): (v: HttpValues)
    ensures FilledFrom(p.variableName, v.variableName, "")
    ensures FilledFrom(p.endpoint, v.endpoint, "")
    ensures FilledFrom(p.httpMethod, v.httpMethod, "GET")
    ensures v.body.Some? && FilledFrom(p.body, v.body.value, "")
    ensures v.httpMethod == HttpRequestExecutor.Options(HttpRequestExecutor.HttpData(None, p.httpMethod, None)).httpMethod
  {
    HttpValues(OrElse(p.variableName, ""), OrElse(p.endpoint, ""), OrElse(p.httpMethod, "GET"), Some(OrElse(p.body, "")))
  }

  /** Reopening on the values the dialog opened with shows them again. */
  lemma HttpDefaultsStable(p: HttpPartial)
    ensures var v := HttpDefaults(p);
      HttpDefaults(HttpPartial(Some(v.variableName), Some(v.endpoint), Some(v.httpMethod), v.body)) == v
  {
  }

  /** A new node opens on GET with the other fields empty, and cannot be submitted as it is. */
  lemma HttpDefaultsOfNewNode()
    ensures var v := HttpDefaults(HttpPartial(None, None, None, None));
      v == HttpValues("", "", "GET", Some("")) && !HttpValid(v)
  {
  }

  lemma HttpDefaultsRoundTrip(v: HttpValues)
    requires HttpValid(v) && v.body.Some?
    ensures HttpDefaults(HttpPartial(Some(v.variableName), Some(v.endpoint), Some(v.httpMethod), v.body)) == v
  {
  }

  /** `["POST", "PUT", "PATCH"].includes(watchMethod)` */
  predicate ShowBodyField(httpMethod: string) {
    httpMethod in ["POST", "PUT", "PATCH"]
  }

  /** The body field is shown exactly for the methods whose request carries a
      non-empty body: what the dialog hides, the executor never sends. */
  lemma BodyShownIffSent(v: HttpValues)
    requires HttpValid(v)
    requires v.body.Some? && v.body.value != ""
    ensures var o := HttpRequestExecutor.Options(HttpRequestExecutor.HttpData(Some(v.endpoint), Some(v.httpMethod), v.body));
      ShowBodyField(v.httpMethod) <==> o.body == v.body
  {
  }

  // ---------------------------------------------------------------- Discord and Slack dialogs

  datatype DiscordValues = DiscordValues(variableName: string, username: Option<string>, content: string, webhookURL: string)
  datatype DiscordPartial = DiscordPartial(variableName: Option<string>, username: Option<string>,
                                           content: Option<string>, webhookURL: Option<string>)

  /** Content between 1 and 2000 characters. */
  predicate DiscordValid(v: DiscordValues) {
    ValidVariableName(v.variableName) && 1 <= |v.content| <= 2000 && |v.webhookURL| >= 1
  }

  /** `field || ""` for every field. */
  function DiscordDefaults(p: DiscordPartial): (v: DiscordValues)
    ensures FilledFrom(p.variableName, v.variableName, "")
    ensures v.username.Some? && FilledFrom(p.username, v.username.value, "")
    ensures FilledFrom(p.content, v.content, "")
    ensures FilledFrom(p.webhookURL, v.webhookURL, "")
  {
    DiscordValues(OrElse(p.variableName, ""), Some(OrElse(p.username, "")), OrElse(p.content, ""), OrElse(p.webhookURL, ""))
  }

  /** Reopening on the values the dialog opened with shows them again. */
  lemma DiscordDefaultsStable(p: DiscordPartial)
    ensures var v := DiscordDefaults(p);
      DiscordDefaults(DiscordPartial(Some(v.variableName), v.username, Some(v.content), Some(v.webhookURL))) == v
  {
  }

  /** A new node opens with every field empty, and cannot be submitted as it is. */
  lemma DiscordDefaultsOfNewNode()
    ensures var v := DiscordDefaults(DiscordPartial(None, None, None, None));
      v == DiscordValues("", Some(""), "", "") && !DiscordValid(v)
  {
  }

  lemma DiscordDefaultsRoundTrip(v: DiscordValues)
    requires DiscordValid(v) && v.username.Some?
    ensures DiscordDefaults(DiscordPartial(Some(v.variableName), v.username, Some(v.content), Some(v.webhookURL))) == v
  {
  }

  /** Content the dialog accepts is within the executor's limit, so a template
      that renders to itself is never clipped. */
  lemma DialogContentNotClipped(v: DiscordValues)
    requires DiscordValid(v)
    ensures DiscordExecutor.Clip(v.content) == v.content
  {
  }

  datatype SlackValues = SlackValues(variableName: string, content: string, webhookURL: string)
  datatype SlackPartial = SlackPartial(variableName: Option<string>, content: Option<string>, webhookURL: Option<string>)

  /** Content of at least one character, with no upper bound. */
  predicate SlackValid(v: SlackValues) {
    ValidVariableName(v.variableName) && |v.content| >= 1 && |v.webhookURL| >= 1
  }

  /** `field || ""` for every field. */
  function SlackDefaults(p: SlackPartial): (v: SlackValues)
    ensures FilledFrom(p.variableName, v.variableName, "")
    ensures FilledFrom(p.content, v.content, "")
    ensures FilledFrom(p.webhookURL, v.webhookURL, "")
    ensures !Truthy(p.content) ==> !SlackValid(v)
  {
    SlackValues(OrElse(p.variableName, ""), OrElse(p.content, ""), OrElse(p.webhookURL, ""))
  }

  /** Reopening on the values the dialog opened with shows them again. */
  lemma SlackDefaultsStable(p: SlackPartial)
    ensures var v := SlackDefaults(p);
      SlackDefaults(SlackPartial(Some(v.variableName), Some(v.content), Some(v.webhookURL))) == v
  {
  }

  /** A new node opens with every field empty, and cannot be submitted as it is. */
  lemma SlackDefaultsOfNewNode()
    ensures SlackDefaults(SlackPartial(None, None, None)) == SlackValues("", "", "")
    ensures !SlackValid(SlackDefaults(SlackPartial(None, None, None)))
  {
  }

  lemma SlackDefaultsRoundTrip(v: SlackValues)
    requires SlackValid(v)
    ensures SlackDefaults(SlackPartial(Some(v.variableName), Some(v.content), Some(v.webhookURL))) == v
  {
  }

  /** The Slack schema accepts exactly the Discord schema's content plus content
      longer than 2000 characters. */
  lemma SlackAcceptsLongerContent(v: SlackValues, username: Option<string>)
    ensures var d := DiscordValues(v.variableName, username, v.content, v.webhookURL);
      SlackValid(v) <==> DiscordValid(d) || (ValidVariableName(v.variableName) && |v.content| > 2000 && |v.webhookURL| >= 1)
  {
  }

  // ---------------------------------------------------------------- submitting

  /** A dialog: the form only calls `handleSubmit` with values the schema
      accepts; `handleSubmit` forwards them to `onSubmit` and then closes. */
  class Dialog<V> {
    const schema: V -> bool
    var open: bool
    /** The values passed to `onSubmit`, in order. */
    var submitted: seq<V>

    ghost predicate Valid()
      reads this
    {
      forall v :: v in submitted ==> schema(v)
    }

    constructor(schema: V -> bool, open: bool)
      ensures this.schema == schema && this.open == open && submitted == []
      ensures Valid()
    {
      this.schema := schema;
      this.open := open;
      submitted := [];
    }

    /** `form.handleSubmit(handleSubmit)` on the current values. */
    method Submit(values: V)
      requires Valid()
      modifies this
      ensures Valid()
      ensures schema(values) ==> submitted == old(submitted) + [values] && !open
      ensures !schema(values) ==> submitted == old(submitted) && open == old(open)
    {
      if schema(values) {
        submitted := submitted + [values];   // onSubmit(values)
        open := false;                        // onOpenChange(false)
      }
    }
  }
}
