/**
 * The parts of net/http the handlers touch: the reason phrases of status codes, the
 * response writer they answer through, and the request whose context they update.
 */
module Http {
  import opened Wrappers
  import opened Errors

  /** http.StatusText: the reason phrase of a status code, "" for a code it does not know. */
  function StatusText(code: int): (text: string)
    ensures code == 200 ==> text == "OK"
    ensures code == 400 ==> text == "Bad Request"
    ensures code == 500 ==> text == "Internal Server Error"
    ensures text != "" ==> 100 <= code <= 599
  {
    match code
    case 100 => "Continue"
    case 101 => "Switching Protocols"
    case 102 => "Processing"
    case 103 => "Early Hints"
    case 200 => "OK"
    case 201 => "Created"
    case 202 => "Accepted"
    case 203 => "Non-Authoritative Information"
    case 204 => "No Content"
    case 205 => "Reset Content"
    case 206 => "Partial Content"
    case 207 => "Multi-Status"
    case 208 => "Already Reported"
    case 226 => "IM Used"
    case 300 => "Multiple Choices"
    case 301 => "Moved Permanently"
    case 302 => "Found"
    case 303 => "See Other"
    case 304 => "Not Modified"
    case 305 => "Use Proxy"
    case 307 => "Temporary Redirect"
    case 308 => "Permanent Redirect"
    case 400 => "Bad Request"
    case 401 => "Unauthorized"
    case 402 => "Payment Required"
    case 403 => "Forbidden"
    case 404 => "Not Found"
    case 405 => "Method Not Allowed"
    case 406 => "Not Acceptable"
    case 407 => "Proxy Authentication Required"
    case 408 => "Request Timeout"
    case 409 => "Conflict"
    case 410 => "Gone"
    case 411 => "Length Required"
    case 412 => "Precondition Failed"
    case 413 => "Request Entity Too Large"
    case 414 => "Request URI Too Long"
    case 415 => "Unsupported Media Type"
    case 416 => "Requested Range Not Satisfiable"
    case 417 => "Expectation Failed"
    case 418 => "I'm a teapot"
    case 421 => "Misdirected Request"
    case 422 => "Unprocessable Entity"
    case 423 => "Locked"
    case 424 => "Failed Dependency"
    case 425 => "Too Early"
    case 426 => "Upgrade Required"
    case 428 => "Precondition Required"
    case 429 => "Too Many Requests"
    case 431 => "Request Header Fields Too Large"
    case 451 => "Unavailable For Legal Reasons"
    case 500 => "Internal Server Error"
    case 501 => "Not Implemented"
    case 502 => "Bad Gateway"
    case 503 => "Service Unavailable"
    case 504 => "Gateway Timeout"
    case 505 => "HTTP Version Not Supported"
    case 506 => "Variant Also Negotiates"
    case 507 => "Insufficient Storage"
    case 508 => "Loop Detected"
    case 510 => "Not Extended"
    case 511 => "Network Authentication Required"
    case _ => ""
  }

  /**
   * An http.ResponseWriter seen from the handler: the header map it may still edit, the
   * status and headers fixed by the first WriteHeader, and the values written to the body.
   * A connection that fails carries its failure in fault, and every write then reports it.
   */
  class ResponseWriter<Body> {
    const fault: Option<string>
    var wroteHeader: bool
    var status: int
    var header: map<string, string>
    var sentHeader: map<string, string>
    var body: seq<Body>

    /** A writer that has sent nothing yet; header holds what earlier middleware set. */
    constructor (header: map<string, string>, fault: Option<string>)
      ensures this.header == header && this.fault == fault
      ensures !wroteHeader && status == 200 && sentHeader == map[] && body == []
    {
      this.fault := fault;
      this.header := header;
      wroteHeader := false;
      status := 200;
      sentHeader := map[];
      body := [];
    }

    /** Nothing has been sent on this writer yet. */
    predicate Unwritten()
      reads this
    {
      !wroteHeader && body == []
    }

    /**
     * WriteHeader: the first call fixes the status and a copy of the headers; any later
     * call is ignored.
     */
    method WriteHeader(code: int)
      modifies this
      ensures wroteHeader
      ensures status == if old(wroteHeader) then old(status) else code
      ensures sentHeader == if old(wroteHeader) then old(sentHeader) else old(header)
      ensures header == old(header) && body == old(body)
    {
      if !wroteHeader {
        wroteHeader := true;
        status := code;
        sentHeader := header;
      }
    }

    /** Header().Set(key, value): edits the header map, which matters only before WriteHeader. */
    method SetHeader(key: string, value: string)
      modifies this
      ensures header == old(header)[key := value]
      ensures wroteHeader == old(wroteHeader) && status == old(status)
      ensures sentHeader == old(sentHeader) && body == old(body)
    {
      header := header[key := value];
    }

    /**
     * Write: sends the status (200 unless WriteHeader came first), then v, or reports the
     * connection's failure and sends nothing.
     */
    method Write(v: Body) returns (err: Option<Error>)
      modifies this
      ensures wroteHeader
      ensures status == if old(wroteHeader) then old(status) else 200
      ensures sentHeader == if old(wroteHeader) then old(sentHeader) else old(header)
      ensures header == old(header)
      ensures fault.None? ==> err.None? && body == old(body) + [v]
      ensures fault.Some? ==> err == Some(Root(WriteFailure(fault.value))) && body == old(body)
    {
      WriteHeader(200);
      if fault.Some? {
        err := Some(Root(WriteFailure(fault.value)));
      } else {
        body := body + [v];
        err := None;
      }
    }
  }

  /**
   * An incoming request: the {id} path value, and the two context values the handlers leave
   * for the logging middleware, the status and the list of errors met.
   */
  class Request {
    const pathId: string
    var ctxStatus: Option<int>
    var ctxErrors: Option<seq<Error>>

    constructor (pathId: string)
      ensures this.pathId == pathId && ctxStatus == None && ctxErrors == None
    {
      this.pathId := pathId;
      ctxStatus := None;
      ctxErrors := None;
    }
  }
}

/** The handlers' side of the logging middleware: how they hand it the outcome of a request. */
module Middleware {
  import opened Wrappers
  import opened Errors
  import opened Http

  /**
   * UpdateContext: replaces the request by one whose context carries status and the
   * error list, for the logging middleware to read once the handler returns.
   */
  method UpdateContext(r: Request, status: int, errorList: seq<Error>)
    modifies r
    ensures r.ctxStatus == Some(status) && r.ctxErrors == Some(errorList)
  {
    r.ctxStatus := Some(status);
    r.ctxErrors := Some(errorList);
  }
}
