/** Optional values and results, as the services use them: a Prisma lookup
    that finds nothing is `None`, a service call that throws is `Err`. */
module Wrappers {

  datatype Option<+T> = None | Some(value: T) {
    function GetOr(default: T): T {
      match this
      case Some(v) => v
      case None => default
    }
  }

  datatype Result<+T, +E> = Ok(value: T) | Err(error: E)
}
