/**
 * The slice of `net/http` the handlers touch: an abstract request (its method is the field `verb`), the
 * outcome a handler produces, and the status code each outcome is sent with.
 */
module Http {
  import opened Wrappers

  const MethodGet := "GET"
  const MethodPost := "POST"

  const StatusOK := 200
  /** 301 Moved Permanently, section 15.4.2 of RFC 9110. */
  const StatusMovedPermanently := 301
  const StatusBadRequest := 400
  const StatusNotFound := 404
  /** 405 Method Not Allowed, section 15.5.6 of RFC 9110. */
  const StatusMethodNotAllowed := 405
  const StatusInternalServerError := 500

  /** Body the handlers write with every 405. */
  const InvalidMethodMessage := "Invalid request method"

  /**
   * A request as the handlers see it: the method, `r.URL.Path`, and the first
   * value of each form field (query string and form body together).
   */
  datatype Request = Request(verb: string, path: string, form: map<string, string>)

  /** `r.FormValue(key)`: the first value of the field, "" when it is absent. */
  function FormValue(r: Request, key: string): string
  {
    if key in r.form then r.form[key] else ""
  }

  /** What one call of a handler does with the response writer. */
  datatype Outcome =
    | MethodNotAllowed                  // http.Error(w, InvalidMethodMessage, 405)
    | BadRequest(message: string)       // http.Error(w, message, 400)
    | NotFound                          // http.NotFound(w, r)
    | Redirect(location: string)        // http.Redirect(w, r, location, 301)
    | Fallback(request: Request)        // fallback.ServeHTTP(w, r), nothing else written
    | InternalError(message: string)    // http.Error(w, message, 500)
    | Rendered(originalUrl: string, shortUrl: string)  // the confirmation page, 200

  /**
   * The status sent; a fallback chooses its own. Every redirect is permanent
   * (301), client errors are in the 4xx class and server errors in the 5xx
   * class (section 15 of RFC 9110).
   */
  function Status(o: Outcome): (s: Option<int>)
    ensures s.None? <==> o.Fallback?
    ensures o.Rendered? ==> s == Some(200)
    ensures o.Redirect? ==> s == Some(StatusMovedPermanently)
    ensures o.MethodNotAllowed? || o.BadRequest? || o.NotFound? ==> s.Some? && 400 <= s.value < 500
    ensures o.InternalError? ==> s.Some? && 500 <= s.value < 600
  {
    match o
    case MethodNotAllowed => Some(StatusMethodNotAllowed)
    case BadRequest(_) => Some(StatusBadRequest)
    case NotFound => Some(StatusNotFound)
    case Redirect(_) => Some(StatusMovedPermanently)
    case Fallback(_) => None
    case InternalError(_) => Some(StatusInternalServerError)
    case Rendered(_, _) => Some(StatusOK)
  }
}
