/** exception/GlobalExceptionHandler.java: how a failure reaches the user.
    Every handler answers an AJAX request with a JSON body and any other
    request with the "error" page; the API handler also translates the
    upstream status. The request is reduced to its two relevant headers and
    the clock to the `now` parameter. */
module ExceptionHandler {
  import opened Common
  import opened Exceptions

  /** A value put in a response map or a page model. */
  datatype Field = Text(text: Option<string>) | Number(n: int)

  /** `ResponseEntity.status(status).body(map)`, or a `ModelAndView("error")`
      with its model. The page's HTTP status is never set on the
      ModelAndView; the handlers only put a "status" attribute in its model. */
  datatype Response =
    | Json(status: int, body: map<string, Field>)
    | View(name: string, model: map<string, Field>)

  const InternalServerError := 500
  const BadGateway := 502
  const NotFound := 404
  const Forbidden := 403

  const GenericMessage := "Ha ocurrido un error inesperado. Por favor, inténtelo de nuevo más tarde."

  /** `isAjaxRequest(request)`: `X-Requested-With` is exactly
      "XMLHttpRequest", or `Accept` is present and contains
      "application/json". */
  predicate IsAjaxRequest(requestedWith: Option<string>, accept: Option<string>)
  {
    requestedWith == Some("XMLHttpRequest") || (accept.Some? && Contains(accept.value, "application/json"))
  }

  /** Any `Accept` header that mentions JSON, wherever in the list, makes the
      request an AJAX one. */
  lemma {:induction false} AcceptMentioningJsonIsAjax(requestedWith: Option<string>, before: string, after: string)
    ensures IsAjaxRequest(requestedWith, Some(before + "application/json" + after))
  {
    var accept := before + "application/json" + after;
    assert accept[|before|..|before| + |"application/json"|] == "application/json";
    ContainsAt(accept, "application/json", |before|);
  }

  /** Without an `Accept` header only the exact header value counts: the
      comparison is case-sensitive. */
  lemma {:induction false} RequestedWithIsExact(requestedWith: string)
    ensures IsAjaxRequest(Some(requestedWith), None) <==> requestedWith == "XMLHttpRequest"
    ensures !IsAjaxRequest(Some("xmlhttprequest"), None)
  {
    assert "xmlhttprequest"[0] != "XMLHttpRequest"[0];
  }

  /** The status the API handler answers with: 404 for 404, 403 for 401 and
      403, and 502 for everything else, a missing code included. */
  function ApiStatus(code: Option<int>): (s: int)
    ensures s == NotFound <==> code == Some(404)
    ensures s == Forbidden <==> code == Some(401) || code == Some(403)
    ensures s == BadGateway <==> !(code == Some(404) || code == Some(401) || code == Some(403))
  {
    if code == Some(404) then NotFound
    else if code == Some(401) || code == Some(403) then Forbidden
    else BadGateway
  }

  /** The status a response carries: the HTTP status of a JSON answer, the
      "status" attribute of a page. */
  function StatusOf(r: Response): Option<int>
  {
    match r
    case Json(status, _) => Some(status)
    case View(_, model) => if "status" in model && model["status"].Number? then Some(model["status"].n) else None
  }

  /** `handleFileException(ex, request)`. */
  method HandleFileException(e: Exc, requestedWith: Option<string>, accept: Option<string>, now: int) returns (r: Response)
    requires e.kind.FileError?
    ensures r.Json? <==> IsAjaxRequest(requestedWith, accept)
    ensures StatusOf(r) == Some(InternalServerError)
    ensures r.Json? ==> r.body.Keys == {"error", "message", "file"}
                        && r.body["error"] == Text(Some("Error de archivo"))
                        && r.body["message"] == Text(e.message) && r.body["file"] == Text(GetFilePath(e))
    ensures r.View? ==> r.name == "error" && r.model.Keys == {"errorTitle", "errorMessage", "errorDetails", "timestamp", "status"}
                        && r.model["errorTitle"] == Text(Some("Error de archivo")) && r.model["errorMessage"] == Text(e.message)
                        && r.model["errorDetails"] == Text(Some("Archivo: " + JavaString(GetFilePath(e))))
                        && r.model["timestamp"] == Number(now)
  {
    if IsAjaxRequest(requestedWith, accept) {
      var response: map<string, Field> := map[];
      response := response["error" := Text(Some("Error de archivo"))];
      response := response["message" := Text(e.message)];
      response := response["file" := Text(GetFilePath(e))];
      return Json(InternalServerError, response);
    } else {
      var mav: map<string, Field> := map[];
      mav := mav["errorTitle" := Text(Some("Error de archivo"))];
      mav := mav["errorMessage" := Text(e.message)];
      mav := mav["errorDetails" := Text(Some("Archivo: " + JavaString(GetFilePath(e))))];
      mav := mav["timestamp" := Number(now)];
      mav := mav["status" := Number(InternalServerError)];
      return View("error", mav);
    }
  }

  /** `handleDatabaseException(ex, request)`: the SQL code appears, in the
      JSON body or as the page's details, exactly when there is one. */
  method HandleDatabaseException(e: Exc, requestedWith: Option<string>, accept: Option<string>, now: int)
    returns (r: Response)
    requires e.kind.DatabaseError?
    ensures r.Json? <==> IsAjaxRequest(requestedWith, accept)
    ensures StatusOf(r) == Some(InternalServerError)
    ensures r.Json? ==> r.body.Keys == {"error", "message"} + (if e.kind.sqlCode.Some? then {"sqlCode"} else {})
                        && r.body["error"] == Text(Some("Error de base de datos")) && r.body["message"] == Text(e.message)
                        && (e.kind.sqlCode.Some? ==> r.body["sqlCode"] == Text(e.kind.sqlCode))
    ensures r.View? ==> r.name == "error"
                        && r.model.Keys == {"errorTitle", "errorMessage", "timestamp", "status"}
                                           + (if e.kind.sqlCode.Some? then {"errorDetails"} else {})
                        && r.model["errorTitle"] == Text(Some("Error de base de datos")) && r.model["errorMessage"] == Text(e.message)
                        && (e.kind.sqlCode.Some? ==> r.model["errorDetails"] == Text(Some("SQL: " + e.kind.sqlCode.value)))
                        && r.model["timestamp"] == Number(now)
  {
    if IsAjaxRequest(requestedWith, accept) {
      var response: map<string, Field> := map[];
      response := response["error" := Text(Some("Error de base de datos"))];
      response := response["message" := Text(e.message)];
      if e.kind.sqlCode.Some? {
        response := response["sqlCode" := Text(e.kind.sqlCode)];
      }
      return Json(InternalServerError, response);
    } else {
      var mav: map<string, Field> := map[];
      mav := mav["errorTitle" := Text(Some("Error de base de datos"))];
      mav := mav["errorMessage" := Text(e.message)];
      if e.kind.sqlCode.Some? {
        mav := mav["errorDetails" := Text(Some("SQL: " + e.kind.sqlCode.value))];
      }
      mav := mav["timestamp" := Number(now)];
      mav := mav["status" := Number(InternalServerError)];
      return View("error", mav);
    }
  }

  /** The details line of the API error page. */
  function ApiDetails(apiUrl: Option<string>, code: Option<int>): (s: string)
    ensures |"API: " + JavaString(apiUrl)| <= |s|
    ensures s[..|"API: " + JavaString(apiUrl)|] == "API: " + JavaString(apiUrl)
    ensures code.None? ==> s == "API: " + JavaString(apiUrl)
    ensures code.Some? ==> s[|"API: " + JavaString(apiUrl)|..] == ", Estado: " + IntToString(code.value)
  {
    var details := "API: " + JavaString(apiUrl);
    var status := if code.Some? then ", Estado: " + IntToString(code.value) else "";
    assert (details + status)[..|details|] == details;
    assert (details + status)[|details|..] == status;
    details + status
  }

  /** `handleApiException(ex, request)`: the status starts as 502 and is
      replaced for the codes it knows; the same status serves both kinds of
      answer, and the upstream code is reported exactly when there is one. */
  method HandleApiException(e: Exc, requestedWith: Option<string>, accept: Option<string>, now: int) returns (r: Response)
    requires e.kind.ApiError?
    ensures r.Json? <==> IsAjaxRequest(requestedWith, accept)
    ensures StatusOf(r) == Some(ApiStatus(e.kind.statusCode))
    ensures r.Json? ==> r.body.Keys == {"error", "message", "apiUrl"} + (if e.kind.statusCode.Some? then {"statusCode"} else {})
                        && r.body["error"] == Text(Some("Error de API")) && r.body["message"] == Text(e.message)
                        && r.body["apiUrl"] == Text(e.kind.apiUrl)
                        && (e.kind.statusCode.Some? ==> r.body["statusCode"] == Number(e.kind.statusCode.value))
    ensures r.View? ==> r.name == "error" && r.model.Keys == {"errorTitle", "errorMessage", "errorDetails", "timestamp", "status"}
                        && r.model["errorTitle"] == Text(Some("Error de API")) && r.model["errorMessage"] == Text(e.message)
                        && r.model["errorDetails"] == Text(Some(ApiDetails(e.kind.apiUrl, e.kind.statusCode)))
                        && r.model["timestamp"] == Number(now)
  {
    var status := BadGateway;
    if e.kind.statusCode.Some? {
      var code := e.kind.statusCode.value;
      if code == 404 {
        status := NotFound;
      } else if code == 401 || code == 403 {
        status := Forbidden;
      } else if code >= 500 {
        status := BadGateway;
      }
    }
    if IsAjaxRequest(requestedWith, accept) {
      var response: map<string, Field> := map[];
      response := response["error" := Text(Some("Error de API"))];
      response := response["message" := Text(e.message)];
      response := response["apiUrl" := Text(e.kind.apiUrl)];
      if e.kind.statusCode.Some? {
        response := response["statusCode" := Number(e.kind.statusCode.value)];
      }
      return Json(status, response);
    } else {
      var mav: map<string, Field> := map[];
      mav := mav["errorTitle" := Text(Some("Error de API"))];
      mav := mav["errorMessage" := Text(e.message)];
      var details := "API: " + JavaString(e.kind.apiUrl);
      if e.kind.statusCode.Some? {
        var code := IntToString(e.kind.statusCode.value);
        assert details + ", Estado: " + code == details + (", Estado: " + code);
        details := details + ", Estado: " + code;
      }
      mav := mav["errorDetails" := Text(Some(details))];
      mav := mav["timestamp" := Number(now)];
      mav := mav["status" := Number(status)];
      return View("error", mav);
    }
  }

  /** `handleGenericException(ex, request)`: a fixed message in both answers;
      only the page's details name the exception's class and message. */
  method HandleGenericException(e: Exc, requestedWith: Option<string>, accept: Option<string>, now: int)
    returns (r: Response)
    ensures r.Json? <==> IsAjaxRequest(requestedWith, accept)
    ensures StatusOf(r) == Some(InternalServerError)
    ensures r.Json? ==> r.body == map["error" := Text(Some("Error interno")), "message" := Text(Some(GenericMessage))]
    ensures r.View? ==> r.name == "error" && r.model.Keys == {"errorTitle", "errorMessage", "errorDetails", "timestamp", "status"}
                        && r.model["errorTitle"] == Text(Some("Error interno"))
                        && r.model["errorMessage"] == Text(Some(GenericMessage))
                        && r.model["errorDetails"] == Text(Some(SimpleName(e.kind) + ": " + JavaString(e.message)))
                        && r.model["timestamp"] == Number(now)
  {
    if IsAjaxRequest(requestedWith, accept) {
      var response: map<string, Field> := map[];
      response := response["error" := Text(Some("Error interno"))];
      response := response["message" := Text(Some(GenericMessage))];
      return Json(InternalServerError, response);
    } else {
      var mav: map<string, Field> := map[];
      mav := mav["errorTitle" := Text(Some("Error interno"))];
      mav := mav["errorMessage" := Text(Some(GenericMessage))];
      mav := mav["errorDetails" := Text(Some(SimpleName(e.kind) + ": " + JavaString(e.message)))];
      mav := mav["timestamp" := Number(now)];
      mav := mav["status" := Number(InternalServerError)];
      return View("error", mav);
    }
  }

  /** The handler Spring picks for a thrown exception: the one declared for
      its class, and the generic one for any other class. Only an API error
      can answer with anything but 500. */
  method Handle(e: Exc, requestedWith: Option<string>, accept: Option<string>, now: int) returns (r: Response)
    ensures r.Json? <==> IsAjaxRequest(requestedWith, accept)
    ensures StatusOf(r) == Some(if e.kind.ApiError? then ApiStatus(e.kind.statusCode) else InternalServerError)
  {
    match e.kind {
      case FileError(_) => r := HandleFileException(e, requestedWith, accept, now);
      case DatabaseError(_) => r := HandleDatabaseException(e, requestedWith, accept, now);
      case ApiError(_, _) => r := HandleApiException(e, requestedWith, accept, now);
      case _ => r := HandleGenericException(e, requestedWith, accept, now);
    }
  }
}
