/**
 * The global error handler of backend/src/middleware/errorMiddleware.js: how
 * an error that reached it becomes a response, depending on the environment
 * the server runs in. Logging to the console is left out.
 */
module ErrorMiddleware {
  import opened Wrappers
  import Text

  /**
   * The properties of an error the handler reads. `statusCode` and `status`
   * are `None` when unset; `keyValue` lists a duplicate-key error's fields in
   * order; `validationMessages` are the messages of a validation error's
   * individual errors; `isOperational` is an own property set to true.
   */
  datatype ErrorRecord = ErrorRecord(
    statusCode: Option<int>,
    status: Option<string>,
    message: string,
    stack: string,
    name: string,
    code: Option<int>,
    keyValue: seq<(string, string)>,
    validationMessages: seq<string>,
    isOperational: bool)

  /** What is sent: code, status, message, and in development the error and its stack. */
  datatype Response = Response(
    statusCode: int,
    status: string,
    message: string,
    error: Option<ErrorRecord>,
    stack: Option<string>)

  /** The error the production branch sends on: `{...err}` or one a classifier built. */
  datatype Outgoing = Outgoing(statusCode: int, status: string, message: string, isOperational: bool)

  const GenericMessage := "Something went wrong"
  const InvalidTokenMessage := "Invalid token. Please log in again."
  const ExpiredTokenMessage := "Your token has expired. Please log in again."

  /** `err.statusCode || 500`: an unset or zero code becomes 500. */
  function StatusCodeOrDefault(code: Option<int>): (r: int)
    ensures (code.None? || code == Some(0)) ==> r == 500
    ensures code.Some? && code.value != 0 ==> r == code.value
    ensures r != 0
  {
    if code.Some? && code.value != 0 then code.value else 500
  }

  /** `err.status || 'error'`: an unset or empty status becomes `error`. */
  function StatusOrDefault(status: Option<string>): (r: string)
    ensures (status.None? || status == Some("")) ==> r == "error"
    ensures status.Some? && status.value != "" ==> r == status.value
    ensures r != ""
  {
    if status.Some? && status.value != "" then status.value else "error"
  }

  /** A value interpolated into a template string: `undefined` when absent. */
  function ShowOr(s: Option<string>): string {
    if s.Some? then s.value else "undefined"
  }

  function DuplicateMessage(field: string, value: string): string {
    "Duplicate field value: " + value + ". Please use another value for " + field + "."
  }

  /**
   * `handleDuplicateFieldsDB`: a 400 naming the first duplicated field and its
   * value. `keyValue == []` is an empty `keyValue` object; an error with no
   * `keyValue` at all, on which `Object.keys` throws, is not representable here.
   */
  function HandleDuplicateFields(keyValue: seq<(string, string)>): (r: Outgoing)
    ensures r.statusCode == 400 && r.status == "fail" && r.isOperational
    ensures keyValue != [] ==> r.message == DuplicateMessage(keyValue[0].0, keyValue[0].1)
    ensures keyValue == [] ==> r.message == DuplicateMessage("undefined", "undefined")
  {
    var field := if keyValue == [] then None else Some(keyValue[0].0);
    var value := if keyValue == [] then None else Some(keyValue[0].1);
    Outgoing(400, "fail", DuplicateMessage(ShowOr(field), ShowOr(value)), true)
  }

  /** `handleValidationErrorDB`: a 400 listing every validator message. */
  function HandleValidationError(messages: seq<string>): (r: Outgoing)
    ensures r.statusCode == 400 && r.status == "fail" && r.isOperational
    ensures r.message == "Invalid input data. " + Text.Join(messages, ". ")
  {
    Outgoing(400, "fail", "Invalid input data. " + Text.Join(messages, ". "), true)
  }

  function HandleJwtError(): (r: Outgoing)
    ensures r == Outgoing(401, "fail", InvalidTokenMessage, true)
  {
    Outgoing(401, "fail", InvalidTokenMessage, true)
  }

  function HandleJwtExpiredError(): (r: Outgoing)
    ensures r == Outgoing(401, "fail", ExpiredTokenMessage, true)
  {
    Outgoing(401, "fail", ExpiredTokenMessage, true)
  }

  /** `sendProdError`: an operational error is sent as it is; any other becomes a bare 500. */
  function SendProdError(e: Outgoing): (r: Response)
    ensures r.error.None? && r.stack.None?
    ensures e.isOperational ==> r.statusCode == e.statusCode && r.status == e.status && r.message == e.message
    ensures !e.isOperational ==> r.statusCode == 500 && r.status == "error" && r.message == GenericMessage
  {
    if e.isOperational then Response(e.statusCode, e.status, e.message, None, None)
    else Response(500, "error", GenericMessage, None, None)
  }

  /** The name of an error kind a production classifier rewrites. */
  predicate ClassifiedName(name: string) {
    name == "ValidationError" || name == "JsonWebTokenError" || name == "TokenExpiredError"
  }

  /** The error is one of the kinds a production classifier rewrites. */
  predicate Classified(err: ErrorRecord) {
    err.code == Some(11000) || ClassifiedName(err.name)
  }

  /**
   * `errorHandler`: defaults the code and the status; in development echoes
   * the error with its stack; in production runs the classifiers in order, a
   * later match replacing an earlier one, and sends what results; in any
   * other environment sends nothing.
   */
  method ErrorHandler(err: ErrorRecord, env: string) returns (r: Option<Response>)
    ensures env != "development" && env != "production" ==> r.None?
    ensures env == "development" ==>
      var e := err.(statusCode := Some(StatusCodeOrDefault(err.statusCode)), status := Some(StatusOrDefault(err.status)));
      r == Some(Response(StatusCodeOrDefault(err.statusCode), StatusOrDefault(err.status), err.message, Some(e), Some(err.stack)))
    ensures env == "production" ==> r.Some? && r.value.error.None? && r.value.stack.None?
    ensures env == "production" && err.name == "TokenExpiredError" ==>
      r.value.statusCode == 401 && r.value.status == "fail" && r.value.message == ExpiredTokenMessage
    ensures env == "production" && err.name == "JsonWebTokenError" ==>
      r.value.statusCode == 401 && r.value.status == "fail" && r.value.message == InvalidTokenMessage
    ensures env == "production" && err.name == "ValidationError" ==>
      r.value.statusCode == 400 && r.value.status == "fail"
      && r.value.message == "Invalid input data. " + Text.Join(err.validationMessages, ". ")
    ensures env == "production" && err.code == Some(11000) && !ClassifiedName(err.name) ==>
      r == Some(SendProdError(HandleDuplicateFields(err.keyValue)))
    ensures env == "production" && !Classified(err) && err.isOperational ==>
      r.value.statusCode == StatusCodeOrDefault(err.statusCode) && r.value.status == StatusOrDefault(err.status)
      && r.value.message == err.message
    ensures env == "production" && !Classified(err) && !err.isOperational ==>
      r.value.statusCode == 500 && r.value.status == "error" && r.value.message == GenericMessage
  {
    var statusCode := StatusCodeOrDefault(err.statusCode);
    var status := StatusOrDefault(err.status);
    var defaulted := err.(statusCode := Some(statusCode), status := Some(status));
    if env == "development" {
      r := Some(Response(statusCode, status, err.message, Some(defaulted), Some(err.stack)));
    } else if env == "production" {
      var error := Outgoing(statusCode, status, err.message, err.isOperational);
      if err.code == Some(11000) {
        error := HandleDuplicateFields(err.keyValue);
      }
      if err.name == "ValidationError" {
        error := HandleValidationError(err.validationMessages);
      }
      if err.name == "JsonWebTokenError" {
        error := HandleJwtError();
      }
      if err.name == "TokenExpiredError" {
        error := HandleJwtExpiredError();
      }
      r := Some(SendProdError(error));
    } else {
      r := None;
    }
  }

  /** A duplicate key reported with a validation error's name is answered as a validation error. */
  method LaterClassifierWins(messages: seq<string>, keyValue: seq<(string, string)>) returns (r: Option<Response>)
    ensures r.Some? && r.value.message == "Invalid input data. " + Text.Join(messages, ". ")
  {
    var err := ErrorRecord(None, None, "E11000", "", "ValidationError", Some(11000), keyValue, messages, false);
    r := ErrorHandler(err, "production");
  }

  /** The error the catch-all route of backend/server.js passes on, as written: no `isOperational`. */
  function RouteNotFound(url: string): (err: ErrorRecord)
    ensures err.statusCode == Some(404) && err.status == Some("fail") && !err.isOperational
    ensures err.message == "Can't find " + url + " on this server!"
  {
    ErrorRecord(Some(404), Some("fail"), "Can't find " + url + " on this server!", "", "Error", None, [], [], false)
  }

  /** As written, an unknown route is a 404 in development but a bare 500 in production. */
  method RouteNotFoundResponses(url: string) returns (dev: Option<Response>, prod: Option<Response>)
    ensures dev.Some? && dev.value.statusCode == 404 && dev.value.status == "fail"
    ensures dev.value.message == "Can't find " + url + " on this server!"
    ensures prod == Some(Response(500, "error", GenericMessage, None, None))
  {
    dev := ErrorHandler(RouteNotFound(url), "development");
    prod := ErrorHandler(RouteNotFound(url), "production");
  }

  /** The catch-all route's error marked operational, as the handler expects of trusted errors. */
  function OperationalRouteNotFound(url: string): (err: ErrorRecord)
    ensures err.statusCode == Some(404) && err.status == Some("fail") && err.isOperational
    ensures err.message == "Can't find " + url + " on this server!"
  {
    RouteNotFound(url).(isOperational := true)
  }

  /** Marked operational, an unknown route is a 404 naming the URL in production too. */
  method OperationalRouteNotFoundResponse(url: string) returns (prod: Option<Response>)
    ensures prod == Some(Response(404, "fail", "Can't find " + url + " on this server!", None, None))
  {
    prod := ErrorHandler(OperationalRouteNotFound(url), "production");
  }
}
