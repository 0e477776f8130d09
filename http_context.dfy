/**
 * The slice of the web framework's request context that the middleware touches:
 * the request's method, headers and client address (read-only), and the response
 * headers, status, JSON body, per-request keys and the abort/next flags (updated
 * in place by the handlers).
 */
module HttpContext {

  /** The JSON bodies the middleware writes. */
  datatype Body =
    | NoBody
    | ErrorBody(error: string, message: string)
    | RateLimitBody(error: string, message: string, retryAfter: int, limit: int, window: int)

  const StatusOK := 200

  class Context {
    /** The request method (GET, POST, OPTIONS, ...). */
    const verb: string
    /** Request headers; a header that is absent reads as "". */
    const requestHeader: map<string, string>
    /** The client address as the framework resolves it. */
    const clientIP: string

    var header: map<string, string>
    var status: int
    var body: Body
    var keys: map<string, string>
    var aborted: bool
    /** The handler chain was continued. */
    var passed: bool

    constructor (verb: string, requestHeader: map<string, string>, clientIP: string)
      ensures this.verb == verb && this.requestHeader == requestHeader && this.clientIP == clientIP
      ensures header == map[] && status == StatusOK && body == NoBody && keys == map[]
      ensures !aborted && !passed
    {
      this.verb := verb;
      this.requestHeader := requestHeader;
      this.clientIP := clientIP;
      header := map[];
      status := StatusOK;
      body := NoBody;
      keys := map[];
      aborted := false;
      passed := false;
    }

    /** The value of a request header, or "" when it is absent. */
    function GetHeader(name: string): (v: string)
      ensures name !in requestHeader ==> v == ""
      ensures name in requestHeader ==> v == requestHeader[name]
    {
      if name in requestHeader then requestHeader[name] else ""
    }

    /** Sets a response header; an empty value removes it instead. */
    method Header(name: string, value: string)
      modifies this
      ensures header == if value == "" then old(header) - {name} else old(header)[name := value]
      ensures status == old(status) && body == old(body) && keys == old(keys)
      ensures aborted == old(aborted) && passed == old(passed)
    {
      if value == "" {
        header := header - {name};
      } else {
        header := header[name := value];
      }
    }

    /** Writes the status code and a JSON body. */
    method JSON(code: int, b: Body)
      modifies this
      ensures status == code && body == b
      ensures header == old(header) && keys == old(keys) && aborted == old(aborted) && passed == old(passed)
    {
      status := code;
      body := b;
    }

    /** Stores a per-request value for later handlers. */
    method Set(key: string, value: string)
      modifies this
      ensures keys == old(keys)[key := value]
      ensures header == old(header) && status == old(status) && body == old(body)
      ensures aborted == old(aborted) && passed == old(passed)
    {
      keys := keys[key := value];
    }

    /** Stops the handler chain after the current handler. */
    method Abort()
      modifies this
      ensures aborted
      ensures header == old(header) && status == old(status) && body == old(body) && keys == old(keys)
      ensures passed == old(passed)
    {
      aborted := true;
    }

    method AbortWithStatus(code: int)
      modifies this
      ensures aborted && status == code
      ensures header == old(header) && body == old(body) && keys == old(keys) && passed == old(passed)
    {
      status := code;
      aborted := true;
    }

    /** Continues with the next handler of the chain. */
    method Next()
      modifies this
      ensures passed
      ensures header == old(header) && status == old(status) && body == old(body) && keys == old(keys)
      ensures aborted == old(aborted)
    {
      passed := true;
    }
  }
}
