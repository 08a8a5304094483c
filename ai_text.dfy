/** What the three AI executors share: the system prompt and reading the text
    of a generation's first content part. */
module AiText {
  import opened Wrappers
  import opened Strings
  import opened Values
  import opened Execution

  /** The node data the Gemini and OpenAI executors read; every field may be absent. */
  datatype AiNodeData = AiNodeData(
    variableName: Option<string>,
    credentialID: Option<string>,
    model: Option<string>,
    systemPrompt: Option<string>,
    userPrompt: Option<string>)

  /** The three required fields are all set. */
  predicate Configured(data: AiNodeData) {
    Truthy(data.variableName) && Truthy(data.credentialID) && Truthy(data.userPrompt)
  }

  const DefaultSystemPrompt := "You are a helpful assistant."

  /** `data.systemPrompt ? Handlebars.compile(data.systemPrompt)(context) : "You are a helpful assistant."` */
  function SystemPrompt(systemPrompt: Option<string>, ctx: Context, render: (string, Context) -> Call<string>): (r: Call<string>)
    ensures !Truthy(systemPrompt) ==> r == Returned(DefaultSystemPrompt)
    ensures Truthy(systemPrompt) ==> r == render(systemPrompt.value, ctx)
  {
    if Truthy(systemPrompt) then render(systemPrompt.value, ctx) else Returned(DefaultSystemPrompt)
  }

  /** The first step's first content part is a "text" part. */
  predicate StartsWithText(steps: seq<GenStep>) {
    |steps| > 0 && |steps[0].content| > 0 && steps[0].content[0].partType == "text"
  }

  /** `steps?.[0]?.content?.[0]?.type === "text" ? steps[0].content[0].text : ""`:
      optional chaining never throws. */
  function OptionalFirstText(steps: seq<GenStep>): (text: string)
    ensures StartsWithText(steps) ==> text == steps[0].content[0].text
    ensures !StartsWithText(steps) ==> text == ""
  {
    if |steps| > 0 && |steps[0].content| > 0 && steps[0].content[0].partType == "text"
    then steps[0].content[0].text
    else ""
  }

  /** `steps[0].content[0].type === "text" ? steps[0].content[0].text : ""`:
      without optional chaining, an empty `steps` or an empty first `content`
      makes the property read throw a TypeError; otherwise the text is the one
      optional chaining would read. */
  function FirstText(steps: seq<GenStep>): (r: Result<string, Thrown>)
    ensures r.Err? <==> (|steps| == 0 || |steps[0].content| == 0)
    ensures r.Err? ==> r.error == TypeError
    ensures r.Ok? ==> r.value == OptionalFirstText(steps)
  {
    if |steps| == 0 then Err(TypeError)              // steps[0] is undefined, `.content` throws
    else if |steps[0].content| == 0 then Err(TypeError)   // content[0] is undefined, `.type` throws
    else
      var part := steps[0].content[0];
      Ok(if part.partType == "text" then part.text else "")
  }
}
