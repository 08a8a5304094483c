/** `httpRequestExecutor`: one request inside step "http-request"; the response
    is stored under the fixed key "httpResponse". No status events. */
module HttpRequestExecutor {
  import opened Wrappers
  import opened Strings
  import opened Values
  import opened Execution

  /** The node data the executor reads; every field may be absent. */
  datatype HttpData = HttpData(
    endpoint: Option<string>,
    httpMethod: Option<string>,
    body: Option<string>)

  /** The `ky` options the executor builds. */
  datatype RequestOptions = RequestOptions(httpMethod: string, body: Option<string>)

  const DefaultMethod := "GET"

  /** The methods that may carry a body. */
  const BodyMethods := ["POST", "PUT", "PATCH"]

  /** The options the request is sent with. */
  function Options(data: HttpData): (o: RequestOptions)
    ensures o.httpMethod == OrElse(data.httpMethod, DefaultMethod)
    // A body is attached exactly for a body method with a non-empty body, and it is the node's body.
    ensures o.body.Some? <==> (o.httpMethod in BodyMethods && Truthy(data.body))
    ensures o.body.Some? ==> o.body == data.body
  {
    var m := OrElse(data.httpMethod, DefaultMethod);
    RequestOptions(m, if m in BodyMethods && Truthy(data.body) then data.body else None)
  }

  /** GET (also the default) and DELETE requests never carry a body. */
  lemma NoBodyForGetOrDelete(data: HttpData)
    requires !Truthy(data.httpMethod) || data.httpMethod.value in ["GET", "DELETE"]
    ensures Options(data).body.None?
  {
  }

  /** `options` is built as `{ method }` and the body is then set in place when allowed. */
  method BuildOptions(data: HttpData) returns (options: RequestOptions)
    ensures options == Options(data)
  {
    var m := OrElse(data.httpMethod, DefaultMethod);
    options := RequestOptions(m, None);
    if m in BodyMethods {
      if Truthy(data.body) {
        options := options.(body := data.body);
      }
    }
  }

  /** The content type announces JSON: `contentType?.includes("application/json")`. */
  predicate IsJson(contentType: Option<string>) {
    contentType.Some? && Includes(contentType.value, "application/json")
  }

  /** The response data: parsed JSON for a JSON content type, otherwise the text. */
  function ResponseData(response: Response, parseJson: string -> Call<Value>): (r: Call<Value>)
    ensures IsJson(response.contentType) ==> r == parseJson(response.body)
    ensures !IsJson(response.contentType) ==> r == Returned(Str(response.body))
  {
    if IsJson(response.contentType) then parseJson(response.body) else Returned(Str(response.body))
  }

  /** A content type with parameters after the media type still counts as JSON,
      wherever "application/json" occurs in it. */
  lemma JsonWithParameters(contentType: string, i: nat)
    requires i + 16 <= |contentType| && contentType[i..i + 16] == "application/json"
    ensures IsJson(Some(contentType))
  {
    IncludesAt(contentType, "application/json", i);
  }

  /** `{ status, statusText, data }`. */
  function HttpResponse(response: Response, data: Value): Value {
    Obj(map["status" := Num(response.status), "statusText" := Str(response.statusText), "data" := data])
  }

  /** Everything the executor does and its outcome, given what the services return. */
  function HttpRun(data: HttpData, ctx: Context, svc: Services): (t: Trace)
    // No status event is ever published.
    ensures forall e :: e in t.log ==> !e.Publish?
    // A missing endpoint throws before any step or request.
    ensures !Truthy(data.endpoint) ==> t == Trace([], Threw(NonRetriableError("HTTP Request Node: No endpoint configured")))
    // The only request goes to the endpoint with the built options.
    ensures forall url, m, b :: Invoke(Fetch(url, m, b)) in t.log ==>
              Truthy(data.endpoint) && url == data.endpoint.value && RequestOptions(m, b) == Options(data)
  {
    if !Truthy(data.endpoint) then Trace([], Threw(NonRetriableError("HTTP Request Node: No endpoint configured")))
    else
      var options := Options(data);
      var step := EnterStep("http-request");
      var call := Invoke(Fetch(data.endpoint.value, options.httpMethod, options.body));
      match svc.fetch(data.endpoint.value, options.httpMethod, options.body)
      case Raised(m) => Trace([step, call], Threw(ServiceError(m)))
      case Returned(response) =>
        match ResponseData(response, svc.parseJson)
        case Raised(m) => Trace([step, call], Threw(ServiceError(m)))
        case Returned(body) => Trace([step, call], Done(ctx["httpResponse" := HttpResponse(response, body)]))
  }

  /** A successful run enters step "http-request", sends one request and sets
      only "httpResponse", to the response's status, status text and data read
      according to its content type. */
  lemma SuccessStoresResponse(data: HttpData, ctx: Context, svc: Services)
    requires HttpRun(data, ctx, svc).outcome.Done?
    ensures Truthy(data.endpoint)
    ensures var o := Options(data);
      && svc.fetch(data.endpoint.value, o.httpMethod, o.body).Returned?
      && var response := svc.fetch(data.endpoint.value, o.httpMethod, o.body).value;
         && ResponseData(response, svc.parseJson).Returned?
         && HttpRun(data, ctx, svc).log == [EnterStep("http-request"), Invoke(Fetch(data.endpoint.value, o.httpMethod, o.body))]
         && OnlyKeySet(ctx, HttpRun(data, ctx, svc).outcome.ctx, "httpResponse",
                       HttpResponse(response, ResponseData(response, svc.parseJson).value))
  {
  }

  /** A failing request or JSON parse propagates unchanged. */
  lemma FailurePropagates(data: HttpData, ctx: Context, svc: Services)
    requires Truthy(data.endpoint)
    requires HttpRun(data, ctx, svc).outcome.Threw?
    ensures var o := Options(data);
      var fetched := svc.fetch(data.endpoint.value, o.httpMethod, o.body);
      HttpRun(data, ctx, svc).outcome.error ==
        ServiceError(if fetched.Raised? then fetched.message else ResponseData(fetched.value, svc.parseJson).message)
  {
  }

  /** `httpRequestExecutor` against a runtime that records its effects. */
  method Execute(rt: Runtime, data: HttpData, ctx: Context, svc: Services) returns (r: Outcome)
    modifies rt
    ensures rt.log == old(rt.log) + HttpRun(data, ctx, svc).log
    ensures r == HttpRun(data, ctx, svc).outcome
  {
    ghost var start := rt.log;
    ghost var t := HttpRun(data, ctx, svc);
    if !Truthy(data.endpoint) {
      return Threw(NonRetriableError("HTTP Request Node: No endpoint configured"));
    }
    var endpoint := data.endpoint.value;
    rt.EnterStep("http-request");
    var options := BuildOptions(data);
    var call := Invoke(Fetch(endpoint, options.httpMethod, options.body));
    rt.Invoke(Fetch(endpoint, options.httpMethod, options.body));
    assert rt.log == start + [EnterStep("http-request"), call];
    var fetched := svc.fetch(endpoint, options.httpMethod, options.body);
    if fetched.Raised? {
      return Threw(ServiceError(fetched.message));
    }
    var response := fetched.value;
    var body := ResponseData(response, svc.parseJson);
    if body.Raised? {
      return Threw(ServiceError(body.message));
    }
    return Done(ctx["httpResponse" := HttpResponse(response, body.value)]);
  }
}
