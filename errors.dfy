/** What a service call can fail with. The HTTP exceptions are the ones the
    services throw; the database errors are what Prisma raises on its own
    (a missing record on `update`/`delete`, a unique constraint on `create`/`update`). */
module Errors {

  datatype HttpError =
    | BadRequest(message: string)       // BadRequestException
    | Unauthorized(message: string)     // UnauthorizedException
    | Forbidden(message: string)        // ForbiddenException
    | NotFound(message: string)         // NotFoundException
    | Conflict(message: string)         // ConflictException
    | TooManyRequests(message: string)  // new HttpException(message, HttpStatus.TOO_MANY_REQUESTS)
  {
    function StatusCode(): int {
      match this
      case BadRequest(_) => 400
      case Unauthorized(_) => 401
      case Forbidden(_) => 403
      case NotFound(_) => 404
      case Conflict(_) => 409
      case TooManyRequests(_) => 429
    }

    /** The `error` field NestJS puts in the body of its built-in exceptions. */
    function ReasonPhrase(): string {
      match this
      case BadRequest(_) => "Bad Request"
      case Unauthorized(_) => "Unauthorized"
      case Forbidden(_) => "Forbidden"
      case NotFound(_) => "Not Found"
      case Conflict(_) => "Conflict"
      case TooManyRequests(_) => "Too Many Requests"
    }
  }

  datatype DbError =
    | RecordNotFound              // Prisma P2025
    | UniqueViolation(field: string)  // Prisma P2002

  datatype Failure =
    | Http(error: HttpError)
    | Db(dbError: DbError)
    | SmsGateway                  // the SMS client rejected the send
}
