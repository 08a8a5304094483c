/** The inbound webhook routes (`POST` of the Google Form, Stripe and PayPal
    routes): check the `workflowID` query parameter, parse the body, map it
    into the run's initial data and dispatch one workflow execution. */
module Webhooks {
  import opened Wrappers
  import opened Strings
  import opened Values

  datatype Route = GoogleFormRoute | StripeRoute | PaypalRoute

  /** One call of `sendWorkflowExecution({ workflowID, initialData })`. */
  datatype Dispatch = Dispatch(workflowID: string, initialData: Value)

  /** `NextResponse.json(body, { status })` */
  datatype JsonResponse = JsonResponse(status: int, body: Value)

  /** The dispatches attempted and the response returned; the Google Form
      route returns nothing on success. */
  datatype Handled = Handled(sent: seq<Dispatch>, response: Option<JsonResponse>)

  /** Reading a property of this value throws. */
  predicate Nullish(v: Value) {
    v.Null? || v.Undefined?
  }

  /** `body.key` on a body that is not `null` or `undefined`. */
  function Field(body: Value, key: string): (r: Value)
    requires !Nullish(body)
    ensures Member(body, key) == Returned(r)
  {
    OptionalMember(body, key)
  }

  /** The Google Form route's `formData`. */
  function FormData(body: Value): Value
    requires !Nullish(body)
  {
    Obj(map[
      "formID" := Field(body, "formID"),
      "formTitle" := Field(body, "formTitle"),
      "responseID" := Field(body, "responseID"),
      "timestamp" := Field(body, "timestamp"),
      "respondentEmail" := Field(body, "respondentEmail"),
      "responses" := Field(body, "responses"),
      "raw" := body])
  }

  /** The Stripe route's `stripeData`; `raw` is `body.data?.object`. */
  function StripeData(body: Value): Value
    requires !Nullish(body)
  {
    Obj(map[
      "eventId" := Field(body, "id"),
      "eventType" := Field(body, "type"),
      "timeStamp" := Field(body, "created"),
      "livemode" := Field(body, "livemode"),
      "raw" := OptionalMember(Field(body, "data"), "object")])
  }

  /** The PayPal route's `paypalData`. */
  function PaypalData(body: Value): Value
    requires !Nullish(body)
  {
    Obj(map[
      "eventId" := Field(body, "id"),
      "eventType" := Field(body, "event_type"),
      "timeStamp" := Field(body, "create_time"),
      "raw" := body])
  }

  /** The `initialData` each route dispatches: its mapping under its own key. */
  function InitialData(route: Route, body: Value): (r: Value)
    requires !Nullish(body)
    ensures r.Obj? && |r.fields| == 1
    ensures route.GoogleFormRoute? ==> r.fields == map["googleForm" := FormData(body)]
    ensures route.StripeRoute? ==> r.fields == map["stripe" := StripeData(body)]
    ensures route.PaypalRoute? ==> r.fields == map["paypal" := PaypalData(body)]
  {
    match route
    case GoogleFormRoute => Obj(map["googleForm" := FormData(body)])
    case StripeRoute => Obj(map["stripe" := StripeData(body)])
    case PaypalRoute => Obj(map["paypal" := PaypalData(body)])
  }

  /** The Google Form and PayPal mappings keep the whole body under "raw", so
      the dispatched initial data determines the parsed body. */
  lemma RawKeepsBody(route: Route, body: Value, other: Value)
    requires route != StripeRoute && !Nullish(body) && !Nullish(other)
    requires InitialData(route, body) == InitialData(route, other)
    ensures body == other
  {
    var key := if route.GoogleFormRoute? then "googleForm" else "paypal";
    assert InitialData(route, body).fields[key].fields["raw"] == body;
    assert InitialData(route, other).fields[key].fields["raw"] == other;
  }

  const MissingWorkflowID := "Missing required query parameter: workflowID"

  function BadRequest(): JsonResponse {
    JsonResponse(400, Obj(map["success" := Bool(false), "error" := Str(MissingWorkflowID)]))
  }

  function FailureMessage(route: Route): string {
    match route
    case GoogleFormRoute => "Failed to process Google Form submission"
    case StripeRoute => "Failed to process Stripe event"
    case PaypalRoute => "Failed to process PayPal event"
  }

  /** The `catch` block's answer. */
  function ServerError(route: Route): JsonResponse {
    JsonResponse(500, Obj(map["success" := Bool(false), "error" := Str(FailureMessage(route))]))
  }

  /** The answer after a dispatch returns. */
  function Succeeded(route: Route): Option<JsonResponse> {
    if route.GoogleFormRoute? then None else Some(JsonResponse(200, Obj(map["success" := Bool(true)])))
  }

  /** The body, if `req.json()` parses it to a value whose properties can be read. */
  function ReadableBody(rawBody: string, parseJson: string -> Call<Value>): Option<Value> {
    match parseJson(rawBody)
    case Raised(_) => None
    case Returned(body) => if Nullish(body) then None else Some(body)
  }

  /** What `POST` does, given the query parameter, the request body and what the
      collaborators return. */
  function Handle(route: Route, workflowID: Option<string>, rawBody: string,
                  parseJson: string -> Call<Value>, send: Dispatch -> Call<()>): (r: Handled)
    // A missing or empty workflowID is a client error and nothing is dispatched.
    ensures !Truthy(workflowID) ==> r == Handled([], Some(BadRequest()))
    // At most one dispatch, for this workflowID, with the route's mapping of the body.
    ensures |r.sent| <= 1
    ensures forall d :: d in r.sent ==>
              Truthy(workflowID) && ReadableBody(rawBody, parseJson).Some?
              && d == Dispatch(workflowID.value, InitialData(route, ReadableBody(rawBody, parseJson).value))
    // Any exception — parsing, reading the body, or dispatching — answers 500.
    ensures Truthy(workflowID) ==>
              (r.response == Some(ServerError(route)) <==>
                 ReadableBody(rawBody, parseJson).None?
                 || send(Dispatch(workflowID.value, InitialData(route, ReadableBody(rawBody, parseJson).value))).Raised?)
  {
    if !Truthy(workflowID) then Handled([], Some(BadRequest()))
    else
      match ReadableBody(rawBody, parseJson)
      case None => Handled([], Some(ServerError(route)))
      case Some(body) =>
        var d := Dispatch(workflowID.value, InitialData(route, body));
        match send(d)
        case Raised(_) => Handled([d], Some(ServerError(route)))
        case Returned(_) => Handled([d], Succeeded(route))
  }

  /** A request with a workflowID and a readable body is dispatched exactly
      once; the route answers with its success response exactly when the
      dispatch returns. */
  lemma DispatchedOnce(route: Route, workflowID: Option<string>, rawBody: string,
                       parseJson: string -> Call<Value>, send: Dispatch -> Call<()>)
    requires Truthy(workflowID) && ReadableBody(rawBody, parseJson).Some?
    ensures var r := Handle(route, workflowID, rawBody, parseJson, send);
      && |r.sent| == 1
      && (r.response == Succeeded(route) <==> send(r.sent[0]).Returned?)
  {
  }

  /** The routes record the dispatches they attempt. */
  class Endpoint {
    var sent: seq<Dispatch>

    constructor()
      ensures sent == []
    {
      sent := [];
    }

    /** `POST(req)` */
    method Post(route: Route, workflowID: Option<string>, rawBody: string,
                parseJson: string -> Call<Value>, send: Dispatch -> Call<()>)
      returns (response: Option<JsonResponse>)
      modifies this
      ensures sent == old(sent) + Handle(route, workflowID, rawBody, parseJson, send).sent
      ensures response == Handle(route, workflowID, rawBody, parseJson, send).response
    {
      if !Truthy(workflowID) {
        return Some(BadRequest());
      }
      var parsed := parseJson(rawBody);
      if parsed.Raised? || Nullish(parsed.value) {
        return Some(ServerError(route));
      }
      var d := Dispatch(workflowID.value, InitialData(route, parsed.value));
      sent := sent + [d];
      var outcome := send(d);
      if outcome.Raised? {
        return Some(ServerError(route));
      }
      return Succeeded(route);
    }
  }
}
