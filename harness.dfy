/**
 * The request-simulation harness of TestsBase: builds a synthetic request, resolves the
 * handler for a verb and path, runs it in-process and translates its result into a
 * returned value or a thrown WebServiceException.
 */
module Harness {
  import opened Wrappers
  import opened UrlDecomposer

  /** HttpMethods.Get. */
  const Get: string := "GET"

  /** (int)HttpStatusCode.InternalServerError. */
  const InternalServerError: int := 500

  /** The two content types the harness can set on a synthetic request. */
  datatype ContentType = FormUrlEncoded | Json

  /** ResponseStatus: the error code and message a response DTO may carry. */
  datatype ResponseStatus = ResponseStatus(errorCode: Option<string>, message: Option<string>)

  /**
   * The objects a handler can hand back, distinguished by the interfaces the harness tests
   * for: a plain DTO, a DTO implementing IHasResponseStatus, an IHttpResult, and an
   * IHttpError (which is also an IHttpResult).
   */
  datatype Object =
    | Null
    | Dto(typeName: string)
    | StatusDto(typeName: string, responseStatus: Option<ResponseStatus>)
    | HttpResult(statusCode: int, response: Object)
    | HttpError(statusCode: int, message: Option<string>, response: Object)

  /** What the harness throws, or lets through from the handler. */
  datatype Exception =
    | WebServiceException(message: Option<string>, statusCode: int, responseDto: Object)
    | NotSupportedException(pathInfo: string)
    | HandlerException(description: string)

  /** MockHttpRequest: the synthetic request, as plain data. The body is kept as the JSON text. */
  datatype MockHttpRequest = MockHttpRequest(
    operationName: string,
    httpMethod: string,
    contentType: Option<ContentType>,
    pathInfo: string,
    queryString: Option<Dictionary>,
    inputStream: Option<string>,
    formData: Option<Dictionary>)

  /** An EndpointHandlerBase: its request name and its two steps, both of which may throw. */
  datatype Handler = Handler(
    requestName: string,
    createRequest: (MockHttpRequest, string) -> Result<Object, Exception>,
    getResponse: (MockHttpRequest, Object) -> Result<Object, Exception>)

  /**
   * GetHandlerForPathInfo followed by the cast to EndpointHandlerBase: the route table, giving
   * no handler (null) when nothing matches; the lookup itself may throw.
   */
  type Resolver = (string, string) -> Result<Option<Handler>, Exception>

  /** The lookup completes and finds no handler. */
  predicate NoHandler(resolve: Resolver, httpMethod: string, pathInfo: string) {
    resolve(httpMethod, pathInfo) == Success(None)
  }

  /** The lookup completes and finds a handler. */
  predicate Resolves(resolve: Resolver, httpMethod: string, pathInfo: string) {
    resolve(httpMethod, pathInfo).Success? && resolve(httpMethod, pathInfo).value.Some?
  }

  function Resolved(resolve: Resolver, httpMethod: string, pathInfo: string): Handler
    requires Resolves(resolve, httpMethod, pathInfo)
  {
    resolve(httpMethod, pathInfo).value.value
  }

  function IsNullOrEmpty(s: Option<string>): bool {
    s.None? || s.value == ""
  }

  /**
   * The content type of the synthetic request: form-url-encoded when there is non-empty
   * form data, otherwise JSON when there is a body, otherwise none.
   */
  function SelectContentType(formData: Option<Dictionary>, requestBody: Option<string>): (r: Option<ContentType>)
    ensures r == Some(FormUrlEncoded) <==> formData.Some? && |formData.value| > 0
    ensures r == Some(Json) <==> (formData.None? || |formData.value| == 0) && requestBody.Some?
    ensures r == None <==> (formData.None? || |formData.value| == 0) && requestBody.None?
  {
    if formData.Some? && |formData.value| > 0 then Some(FormUrlEncoded)
    else if requestBody.Some? then Some(Json)
    else None
  }

  /** The payload of a result envelope signals an error: an IHasResponseStatus with a non-empty error code. */
  predicate CarriesErrorCode(payload: Object) {
    payload.StatusDto? && payload.responseStatus.Some? && !IsNullOrEmpty(payload.responseStatus.value.errorCode)
  }

  /**
   * Response translation. An IHttpError always throws with its own message, status code and
   * response, whatever that response carries; another IHttpResult throws with status 500
   * when its payload carries an error code and otherwise yields its payload; anything else
   * is returned unchanged.
   */
  function TranslateResponse(response: Object): (r: Result<Object, Exception>)
    ensures r.Failure? ==> r.error.WebServiceException?
    ensures response.HttpError? ==>
      r == Failure(WebServiceException(response.message, response.statusCode, response.response))
    ensures response.HttpResult? ==> (r.Failure? <==> CarriesErrorCode(response.response))
    ensures response.HttpResult? && r.Failure? ==>
      r.error == WebServiceException(response.response.responseStatus.value.message, InternalServerError, response.response)
    ensures response.HttpResult? && r.Success? ==> r.value == response.response
    ensures !response.HttpResult? && !response.HttpError? ==> r == Success(response)
  {
    match response
    case HttpError(statusCode, message, payload) =>
      Failure(WebServiceException(message, statusCode, payload))
    case HttpResult(_, payload) =>
      if CarriesErrorCode(payload)
      then Failure(WebServiceException(payload.responseStatus.value.message, InternalServerError, payload))
      else Success(payload)
    case _ => Success(response)
  }

  /**
   * GetHandler: the resolved handler, or NotSupportedException carrying the path when there is
   * none; an exception from the lookup itself passes through.
   */
  function GetHandler(resolve: Resolver, httpMethod: string, pathInfo: string): (r: Result<Handler, Exception>)
    ensures r.Success? <==> Resolves(resolve, httpMethod, pathInfo)
    ensures r.Success? ==> r.value == Resolved(resolve, httpMethod, pathInfo)
    ensures NoHandler(resolve, httpMethod, pathInfo) ==> r == Failure(NotSupportedException(pathInfo))
    ensures resolve(httpMethod, pathInfo).Failure? ==> r == Failure(resolve(httpMethod, pathInfo).error)
  {
    var found :- resolve(httpMethod, pathInfo);
    match found
    case None => Failure(NotSupportedException(pathInfo))
    case Some(handler) => Success(handler)
  }

  /** The synthetic request ExecutePath and GetRequest both build for a resolved handler. */
  function CreateMockRequest(
    handler: Handler, httpMethod: string, pathInfo: string,
    queryString: Option<Dictionary>, formData: Option<Dictionary>, requestBody: Option<string>): MockHttpRequest
  {
    MockHttpRequest(handler.requestName, httpMethod, SelectContentType(formData, requestBody),
                    pathInfo, queryString, requestBody, formData)
  }

  /**
   * ExecutePath(httpMethod, pathInfo, queryString, formData, requestBody): resolve, build the
   * synthetic request, construct the request DTO, run the handler and translate its result.
   */
  function ExecutePath(
    resolve: Resolver, httpMethod: string, pathInfo: string,
    queryString: Option<Dictionary>, formData: Option<Dictionary>, requestBody: Option<string>): (r: Result<Object, Exception>)
    ensures NoHandler(resolve, httpMethod, pathInfo) ==> r == Failure(NotSupportedException(pathInfo))
    ensures resolve(httpMethod, pathInfo).Failure? ==> r == Failure(resolve(httpMethod, pathInfo).error)
  {
    var handler :- GetHandler(resolve, httpMethod, pathInfo);
    var httpReq := CreateMockRequest(handler, httpMethod, pathInfo, queryString, formData, requestBody);
    var request :- handler.createRequest(httpReq, handler.requestName);
    var response :- handler.getResponse(httpReq, request);
    TranslateResponse(response)
  }

  /** GetRequest(httpMethod, pathInfo, queryString, formData, requestBody): resolution and construction only. */
  function GetRequest(
    resolve: Resolver, httpMethod: string, pathInfo: string,
    queryString: Option<Dictionary>, formData: Option<Dictionary>, requestBody: Option<string>): (r: Result<Object, Exception>)
    ensures NoHandler(resolve, httpMethod, pathInfo) ==> r == Failure(NotSupportedException(pathInfo))
    ensures resolve(httpMethod, pathInfo).Failure? ==> r == Failure(resolve(httpMethod, pathInfo).error)
    ensures Resolves(resolve, httpMethod, pathInfo) ==>
      var handler := Resolved(resolve, httpMethod, pathInfo);
      r == handler.createRequest(CreateMockRequest(handler, httpMethod, pathInfo, queryString, formData, requestBody), handler.requestName)
  {
    var handler :- GetHandler(resolve, httpMethod, pathInfo);
    var httpReq := CreateMockRequest(handler, httpMethod, pathInfo, queryString, formData, requestBody);
    handler.createRequest(httpReq, handler.requestName)
  }

  /**
   * The JSON body the typed overload passes on: null exactly when the body object is null,
   * otherwise the serializer's output; an exception from the serializer passes through.
   */
  function SerializeBody<T>(requestBody: Option<T>, serialize: T -> Result<string, Exception>): (json: Result<Option<string>, Exception>)
    ensures requestBody.None? ==> json == Success(None)
    ensures requestBody.Some? ==> (json.Failure? <==> serialize(requestBody.value).Failure?)
    ensures requestBody.Some? && json.Failure? ==> json.error == serialize(requestBody.value).error
    ensures json.Success? ==> (json.value.None? <==> requestBody.None?)
    ensures json.Success? && requestBody.Some? ==> json.value.value == serialize(requestBody.value).value
  {
    match requestBody
    case None => Success(None)
    case Some(body) =>
      var text :- serialize(body);
      Success(Some(text))
  }

  /** ExecutePath<T>: serializes the body object to JSON and delegates to ExecutePath. */
  function ExecutePathTyped<T>(
    resolve: Resolver, httpMethod: string, pathInfo: string,
    queryString: Option<Dictionary>, formData: Option<Dictionary>, requestBody: Option<T>,
    serialize: T -> Result<string, Exception>): (r: Result<Object, Exception>)
    ensures requestBody.None? ==> r == ExecutePath(resolve, httpMethod, pathInfo, queryString, formData, None)
    ensures requestBody.Some? && serialize(requestBody.value).Failure? ==>
      r == Failure(serialize(requestBody.value).error)
    ensures requestBody.Some? && serialize(requestBody.value).Success? ==>
      r == ExecutePath(resolve, httpMethod, pathInfo, queryString, formData, Some(serialize(requestBody.value).value))
  {
    var json :- SerializeBody(requestBody, serialize);
    ExecutePath(resolve, httpMethod, pathInfo, queryString, formData, json)
  }

  /** ExecutePath(httpMethod, pathInfo): decompose the URL, then run with no form data and no body. */
  method ExecuteUrl(resolve: Resolver, httpMethod: string, pathInfo: string) returns (r: Result<Object, Exception>)
    ensures r == ExecutePath(resolve, httpMethod, Decompose(pathInfo).pathInfo, Decompose(pathInfo).queryString, None, None)
    ensures NoHandler(resolve, httpMethod, Decompose(pathInfo).pathInfo) ==>
      r == Failure(NotSupportedException(Decompose(pathInfo).pathInfo))
  {
    var urlParts := new UrlParts(pathInfo);
    r := ExecutePath(resolve, httpMethod, urlParts.PathInfo, urlParts.QueryString, None, None);
  }

  /** ExecutePath(pathInfo): the same as ExecutePath(HttpMethods.Get, pathInfo). */
  method ExecuteGet(resolve: Resolver, pathInfo: string) returns (r: Result<Object, Exception>)
    ensures r == ExecutePath(resolve, Get, Decompose(pathInfo).pathInfo, Decompose(pathInfo).queryString, None, None)
  {
    r := ExecuteUrl(resolve, Get, pathInfo);
  }

  /** GetRequest(httpMethod, pathInfo): decompose the URL, then construct with no form data and no body. */
  method GetRequestUrl(resolve: Resolver, httpMethod: string, pathInfo: string) returns (r: Result<Object, Exception>)
    ensures r == GetRequest(resolve, httpMethod, Decompose(pathInfo).pathInfo, Decompose(pathInfo).queryString, None, None)
  {
    var urlParts := new UrlParts(pathInfo);
    r := GetRequest(resolve, httpMethod, urlParts.PathInfo, urlParts.QueryString, None, None);
  }

  /** GetRequest(pathInfo): decomposes the URL itself and uses HttpMethods.Get. */
  method GetRequestGet(resolve: Resolver, pathInfo: string) returns (r: Result<Object, Exception>)
    ensures r == GetRequest(resolve, Get, Decompose(pathInfo).pathInfo, Decompose(pathInfo).queryString, None, None)
  {
    var urlParts := new UrlParts(pathInfo);
    r := GetRequest(resolve, Get, urlParts.PathInfo, urlParts.QueryString, None, None);
  }

  /**
   * ExecutePath is GetRequest followed by the handler's GetResponse on the same synthetic
   * request and the translation of its result; a failure of resolution or construction is
   * passed on unchanged.
   */
  lemma ExecutePathExtendsGetRequest(
    resolve: Resolver, httpMethod: string, pathInfo: string,
    queryString: Option<Dictionary>, formData: Option<Dictionary>, requestBody: Option<string>)
    ensures var got := GetRequest(resolve, httpMethod, pathInfo, queryString, formData, requestBody);
      got.Failure? ==> ExecutePath(resolve, httpMethod, pathInfo, queryString, formData, requestBody) == Failure(got.error)
    ensures var got := GetRequest(resolve, httpMethod, pathInfo, queryString, formData, requestBody);
      got.Success? ==>
        && Resolves(resolve, httpMethod, pathInfo)
        && var handler := Resolved(resolve, httpMethod, pathInfo);
           var httpReq := CreateMockRequest(handler, httpMethod, pathInfo, queryString, formData, requestBody);
           ExecutePath(resolve, httpMethod, pathInfo, queryString, formData, requestBody) ==
             match handler.getResponse(httpReq, got.value)
             case Failure(e) => Failure(e)
             case Success(response) => TranslateResponse(response)
  {
  }

  /**
   * The IHttpError check comes first: an error envelope throws with its own status code even
   * when its payload also carries a response-status error code.
   */
  lemma HttpErrorBeforeResponseStatus(statusCode: int, message: Option<string>, payload: Object)
    requires CarriesErrorCode(payload)
    ensures TranslateResponse(HttpError(statusCode, message, payload)) ==
      Failure(WebServiceException(message, statusCode, payload))
  {
  }

  /**
   * Over a typed body, the synthetic request is JSON exactly when there is no form data and
   * the body object is non-null.
   */
  lemma TypedBodyContentType<T>(formData: Option<Dictionary>, requestBody: Option<T>, serialize: T -> Result<string, Exception>)
    requires SerializeBody(requestBody, serialize).Success?
    ensures SelectContentType(formData, SerializeBody(requestBody, serialize).value) == Some(Json) <==>
      (formData.None? || |formData.value| == 0) && requestBody.Some?
  {
  }

  /** Any run whose handler returns a plain DTO yields that very DTO. */
  lemma PlainResponsePassesThrough(
    resolve: Resolver, httpMethod: string, pathInfo: string,
    queryString: Option<Dictionary>, formData: Option<Dictionary>, requestBody: Option<string>, dto: Object)
    requires !dto.HttpResult? && !dto.HttpError?
    requires Resolves(resolve, httpMethod, pathInfo)
    requires var handler := Resolved(resolve, httpMethod, pathInfo);
      var httpReq := CreateMockRequest(handler, httpMethod, pathInfo, queryString, formData, requestBody);
      var request := handler.createRequest(httpReq, handler.requestName);
      request.Success? && handler.getResponse(httpReq, request.value) == Success(dto)
    ensures ExecutePath(resolve, httpMethod, pathInfo, queryString, formData, requestBody) == Success(dto)
  {
  }
}
