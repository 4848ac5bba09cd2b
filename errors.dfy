/** The error class and the Express error handler of src/errors.ts. */
module Errors {
  import opened Wrappers

  /** The `name` every CustomAPIError carries; errorHandler dispatches on it. */
  const CustomErrorName := "CustomAPIError"

  /** Status code of a CustomAPIError built without one. */
  const DefaultStatus := 400

  /** Status and message errorHandler sends for every other error. */
  const InternalStatus := 500
  const GenericMessage := "something went wrong"

  /** A thrown JavaScript error as errorHandler sees it: its `name`, its
      `message` and its `statusCode` property, which is `undefined` (None)
      on errors that are not CustomAPIErrors. */
  datatype Error = Error(name: string, message: string, statusCode: Option<int>)

  /** What errorHandler writes: the status passed to `res.status` (None when
      that value is `undefined`) and the body `{message}`. */
  datatype ErrorResponse = ErrorResponse(status: Option<int>, message: string)

  /** `new CustomAPIError(message, statusCode)`, where an omitted status
      code (None) takes the default parameter value. */
  function CustomAPIError(message: string, statusCode: Option<int>): (e: Error)
    ensures e.name == CustomErrorName && e.message == message
    ensures statusCode.Some? ==> e.statusCode == statusCode
    ensures statusCode.None? ==> e.statusCode == Some(DefaultStatus)
  {
    var code := match statusCode
      case Some(c) => c
      case None => DefaultStatus;
    Error(CustomErrorName, message, Some(code))
  }

  /** `errorHandler(err, req, res, next)`: the response it sends for `err`. */
  function ErrorHandler(err: Error): (r: ErrorResponse)
    ensures err.name == CustomErrorName ==> r.status == err.statusCode && r.message == err.message
    ensures err.name != CustomErrorName ==> r.status == Some(InternalStatus) && r.message == GenericMessage
  {
    if err.name == CustomErrorName then
      ErrorResponse(err.statusCode, err.message)
    else
      ErrorResponse(Some(InternalStatus), GenericMessage)
  }

  /** A CustomAPIError reaches the client with its own message and its
      status code, 400 when none was given. */
  lemma CustomErrorReachesClient(message: string, statusCode: Option<int>)
    ensures ErrorHandler(CustomAPIError(message, statusCode)).message == message
    ensures ErrorHandler(CustomAPIError(message, statusCode)).status
         == Some(if statusCode.Some? then statusCode.value else DefaultStatus)
  {
  }

  /** Every other error produces one and the same response, so nothing of
      its name, message or status code reaches the client. */
  lemma OtherErrorsIndistinguishable(a: Error, b: Error)
    requires a.name != CustomErrorName && b.name != CustomErrorName
    ensures ErrorHandler(a) == ErrorHandler(b)
  {
  }

  /** The handler answers 500 exactly when the error is not a CustomAPIError
      or is one that carries 500 itself. */
  lemma InternalStatusIff(err: Error)
    ensures ErrorHandler(err).status == Some(InternalStatus)
        <==> err.name != CustomErrorName || err.statusCode == Some(InternalStatus)
  {
  }
}
