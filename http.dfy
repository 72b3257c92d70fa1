/** The HTTP vocabulary shared by the interceptors and the gateways: requests,
    responses and the events a downstream handler emits, transport errors, and
    the `{success, message, data}` envelope every API reply is wrapped in. */
module Http {
  import opened Common

  /** An outgoing request. `verb` is the HTTP method as Angular spells it
      ("GET", "POST", ...); `params` are the query parameters. */
  datatype Request = Request(
    verb: string,
    url: string,
    headers: map<string, string>,
    params: map<string, string>)

  /** An `HttpResponse`; its body is an opaque snapshot. */
  datatype Response = Response(status: int, body: string)

  /** What a downstream handler emits: the final `HttpResponse`, or another
      event such as the "request sent" notification. */
  datatype HttpEvent = ResponseEvent(response: Response) | OtherEvent(kind: string)

  /** An `HttpErrorResponse`: its status (0 when the server was unreachable)
      and `error.error?.message`, the message field of the error body. */
  datatype HttpError = HttpError(status: int, serverMessage: Option<string>)

  /** The outcome of handing a request to the next stage: the events it
      emitted before completing, or the error it failed with. */
  datatype Outcome = Completed(events: seq<HttpEvent>) | Errored(error: HttpError)

  /** The API's reply envelope `{success, message, data?}`. */
  datatype ApiResponse<T> = ApiResponse(success: bool, message: string, data: Option<T>)

  /** What a gateway receives from `HttpClient`: a 2xx reply whose body is the
      envelope, or an `HttpErrorResponse`. */
  datatype Reply<T> = Delivered(envelope: ApiResponse<T>) | Failed(error: HttpError)

  /** What an rxjs pipeline throws: the `HttpErrorResponse` itself, or an
      `Error` built by a `map` step (which has a message but no `error` body). */
  datatype Thrown = HttpThrown(error: HttpError) | ErrorThrown(message: string)

  /** `err.error?.message` of a thrown value. */
  function BodyMessage(t: Thrown): Option<string> {
    match t
    case HttpThrown(e) => e.serverMessage
    case ErrorThrown(_) => None
  }

  /** A single-valued observable: it emits one value or throws. */
  datatype Stream<T> = Emits(value: T) | Throws(thrown: Thrown)

  /** `http.get/post(...)`: the envelope is emitted, an HTTP failure thrown. */
  function Received<T>(reply: Reply<T>): Stream<ApiResponse<T>> {
    match reply
    case Delivered(env) => Emits(env)
    case Failed(e) => Throws(HttpThrown(e))
  }

  /** `pipe(map(f))` where f may throw. */
  function Then<T, U>(s: Stream<T>, f: T -> Stream<U>): Stream<U> {
    match s
    case Emits(v) => f(v)
    case Throws(t) => Throws(t)
  }

  /** The value a gateway's observable ends with: its value, or an `Error`
      carrying the given message. */
  datatype Result<T> = Ok(value: T) | Fail(message: string)

  /** `catchError(err => throwError(() => new Error(err.error?.message || fallback)))`. */
  function Rewrap<T>(s: Stream<T>, fallback: string): Result<T> {
    match s
    case Emits(v) => Ok(v)
    case Throws(t) => Fail(OrElse(BodyMessage(t), fallback))
  }

  /** A point in time: epoch milliseconds with its local calendar year and
      month (0-based, as `getMonth()` returns it). */
  datatype Stamp = Stamp(millis: int, year: int, month: int)

  const GetMethod := "GET"
}
