/** The single boundary where errors become HTTP responses, the fallback for
    unmatched routes, and the two shapes of controller catch block: the one
    of register, login, createTenant and updateTenant, and the one of
    refreshToken. */
module ErrorHandler {
  import opened Strings
  import opened Http
  import opened Validation

  /** What a handler may throw: a zod validation error, an `AppError` (whose
      `isOperational` is true unless said otherwise), or anything else. */
  datatype Error =
    | ValidationError(issues: seq<Issue>)
    | AppError(statusCode: int, message: string, isOperational: bool := true)
    | UnknownError(message: string, stack: string)

  function ToDetail(issue: Issue): Detail
  {
    Detail(Join(issue.path, '.'), issue.message)
  }

  /** `errorHandler`: validation errors are 400 with one detail per issue,
      application errors keep their own status and message, and anything else
      is a 500 whose body does not depend on the error at all. */
  function HandleError(err: Error): (r: Response)
    ensures err.ValidationError? ==>
      && r.status == 400 && r.body.ValidationBody? && r.body.error == "Validation failed"
      && |r.body.details| == |err.issues|
      && forall i :: 0 <= i < |err.issues| ==>
           r.body.details[i] == Detail(Join(err.issues[i].path, '.'), err.issues[i].message)
    ensures err.AppError? ==> r == Response(err.statusCode, ErrorBody(err.message))
    ensures err.UnknownError? ==> r == Response(500, ErrorBody("Internal server error"))
  {
    match err
    case ValidationError(issues) =>
      Response(400, ValidationBody("Validation failed", seq(|issues|, i requires 0 <= i < |issues| => ToDetail(issues[i]))))
    case AppError(status, message, _) =>
      Response(status, ErrorBody(message))
    case UnknownError(_, _) =>
      Response(500, ErrorBody("Internal server error"))
  }

  /** Two unexpected errors get the very same response: neither message nor
      stack reaches the client. */
  lemma UnknownErrorsLookAlike(e1: Error, e2: Error)
    requires e1.UnknownError? && e2.UnknownError?
    ensures HandleError(e1) == HandleError(e2)
  {
  }

  /** A detail's path names its field unambiguously: when no segment holds a
      '.', splitting the joined path gives the segments back. */
  lemma DetailPathRecoversSegments(err: Error, i: nat)
    requires err.ValidationError? && i < |err.issues|
    requires |err.issues[i].path| >= 1
    requires forall j :: 0 <= j < |err.issues[i].path| ==> '.' !in err.issues[i].path[j]
    ensures Split(HandleError(err).body.details[i].path, '.') == err.issues[i].path
  {
    SplitJoin(err.issues[i].path, '.');
  }

  /** `notFoundHandler`: an unmatched route is a 404 that names the path. */
  function NotFoundHandler(path: string): (r: Response)
    ensures r.status == 404 && r.body == RouteNotFoundBody("Route not found", path)
  {
    Response(404, RouteNotFoundBody("Route not found", path))
  }

  /** The catch block of register, login, createTenant and updateTenant:
      validation and application errors go on unchanged, anything else
      becomes an `AppError(500, message)`. (getTenant's catch passes on only
      application errors, which is the same there: nothing in its `try` can
      raise a validation error.) */
  function Rethrow(e: Error, message: string): (r: Error)
    ensures !e.UnknownError? ==> r == e
    ensures e.UnknownError? ==> r == AppError(500, message) && r.isOperational
  {
    if e.UnknownError? then AppError(500, message) else e
  }

  /** So an unexpected failure inside register, login, createTenant or
      updateTenant reaches the client as a 500 carrying that handler's fixed
      message, never the original one. */
  lemma RethrownUnknownIsFixed500(e: Error, message: string)
    requires e.UnknownError?
    ensures HandleError(Rethrow(e, message)) == Response(500, ErrorBody(message))
  {
  }

  /** The catch block of refreshToken: only a validation error goes on
      unchanged; every other error, an `AppError` included, becomes
      `AppError(401, message)`, so an unexpected failure there is a 401, not a
      500. */
  function RethrowAsUnauthorized(e: Error, message: string): (r: Error)
    ensures e.ValidationError? ==> r == e
    ensures !e.ValidationError? ==> HandleError(r) == Response(401, ErrorBody(message))
  {
    if e.ValidationError? then e else AppError(401, message)
  }
}
