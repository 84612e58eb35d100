/** The global exception filter: turns whatever a request threw into the
    HTTP status and the `{status: "error", statusCode, message}` body. */
module HttpExceptionFilter {
  import opened Json
  import opened Errors

  const INTERNAL_ERROR_MESSAGE: string := "Внутренняя ошибка сервера"
  const FALLBACK_MESSAGE: string := "Ошибка"

  /** What reaches the filter: an `HttpException` with its status and
      `getResponse()` value, or anything else. */
  datatype Exception = HttpException(status: int, response: Json) | OtherException

  /** The JSON body; `timestamp` and `path` (clock and request URL) are not modelled. */
  datatype ErrorBody = ErrorBody(status: string, statusCode: int, message: Json)

  datatype ErrorReply = ErrorReply(httpStatus: int, body: ErrorBody)

  /** `catch(exception, host)`: the status sent and the body written. */
  function Catch(e: Exception): (r: ErrorReply)
    ensures r.body.status == "error" && r.body.statusCode == r.httpStatus
    ensures e.HttpException? ==> r.httpStatus == e.status
    ensures e.OtherException? ==> r.httpStatus == 500 && r.body.message == JStr(INTERNAL_ERROR_MESSAGE)
    ensures e.HttpException? && e.response.JStr? ==> r.body.message == e.response
    ensures e.HttpException? && !e.response.JStr? ==>
              r.body.message == if Truthy(Get(e.response, "message")) then Get(e.response, "message")
                                else JStr(FALLBACK_MESSAGE)
  {
    var status := if e.HttpException? then e.status else 500;
    var message := if e.HttpException? then e.response else JStr(INTERNAL_ERROR_MESSAGE);
    var text := if message.JStr? then message
                else if Truthy(Get(message, "message")) then Get(message, "message")
                else JStr(FALLBACK_MESSAGE);
    ErrorReply(status, ErrorBody("error", status, text))
  }

  /** How a failure of the services reaches the filter: NestJS's built-in
      exceptions carry `{statusCode, message, error}`, a plain
      `HttpException(message, status)` carries the string, and Prisma and
      SMS client errors are not HTTP exceptions at all. */
  function Raised(f: Failure): Exception {
    match f
    case Http(TooManyRequests(m)) => HttpException(429, JStr(m))
    case Http(e) =>
      HttpException(e.StatusCode(), JObj(map["statusCode" := JNum(e.StatusCode()),
                                             "message" := JStr(e.message),
                                             "error" := JStr(e.ReasonPhrase())]))
    case Db(_) => OtherException
    case SmsGateway => OtherException
  }

  /** Every service error reaches the client with its own status code and
      its own message; every database or gateway error as a 500 with the
      fixed message. */
  lemma FailureReply(f: Failure)
    ensures f.Http? && f.error.message != "" ==>
              Catch(Raised(f)) == ErrorReply(f.error.StatusCode(),
                                             ErrorBody("error", f.error.StatusCode(), JStr(f.error.message)))
    ensures !f.Http? ==>
              Catch(Raised(f)) == ErrorReply(500, ErrorBody("error", 500, JStr(INTERNAL_ERROR_MESSAGE)))
  {
  }
}
