/**
 * The HTTP adapter of the xerr/ subpackage (xerr/http.go), on its flat
 * `StructuredError`.
 */
module SubHttp {
  import opened Wrappers
  import opened Converter
  import opened SubXerr
  import opened HttpWire

  /** The body `ToHTTPJSON` and `ToHTTP` build: the four fields, verbatim. */
  function Body(e: StructuredError): (h: HTTPError)
    reads e
    ensures h.code == e.Code && h.message == e.Message && h.reason == e.Reason && h.metadata == e.Metadata
  {
    HTTPError(e.Code, e.Message, e.Reason, e.Metadata)
  }

  /** `ToHTTPJSON`: the body, standing for its JSON bytes, and the HTTP code. */
  function ToHTTPJSON(e: StructuredError): (r: (HTTPError, int))
    reads e
    ensures r.0 == Body(e) && r.1 == e.HTTPCode
  {
    (Body(e), e.HTTPCode)
  }

  /** The response `ToHTTP` writes. */
  function ToHTTP(e: StructuredError): (resp: Response)
    reads e
    ensures resp.contentType == JsonContentType && resp.status == e.HTTPCode && resp.body == Body(e)
  {
    Response(JsonContentType, e.HTTPCode, Body(e))
  }

  /** `httpToGRPCCode`, this package's copy of the HTTP-to-gRPC table. */
  function HttpToGrpcCode(httpCode: int): (c: GrpcCode)
    ensures c == OK <==> 200 <= httpCode < 300
    ensures !c.Other?
  {
    if 200 <= httpCode < 300 then OK
    else if httpCode == 400 then InvalidArgument
    else if httpCode == 401 then Unauthenticated
    else if httpCode == 403 then PermissionDenied
    else if httpCode == 404 then NotFound
    else if httpCode == 409 then Aborted
    else if httpCode == 422 then FailedPrecondition
    else if httpCode == 429 then ResourceExhausted
    else if httpCode == 499 then Canceled
    else if httpCode == 500 then Internal
    else if httpCode == 501 then Unimplemented
    else if httpCode == 503 then Unavailable
    else if httpCode == 504 then DeadlineExceeded
    else if 400 <= httpCode < 500 then InvalidArgument
    else Unknown
  }

  /** The table is the default converter's on every status. */
  lemma HttpToGrpcCodeMatchesConverter(httpCode: int)
    ensures HttpToGrpcCode(httpCode) == HTTPToGRPC(httpCode)
  {
  }

  /** The fields of the error `FromHTTPJSON` builds from a decoded body. */
  function BodyState(h: HTTPError, statusCode: int): SubState {
    SubState(h.code, h.message, h.reason, HttpToGrpcCode(statusCode), statusCode, h.metadata)
  }

  /**
   * `FromHTTPJSON`, given the outcome of `json.Unmarshal`: a decode error is
   * returned as is with no error; otherwise the four body fields are copied
   * verbatim, the HTTP code is the status code and the gRPC code is derived from it.
   */
  method FromHTTPJSON<E>(decoded: Result<HTTPError, E>, statusCode: int) returns (r: Result<StructuredError, E>)
    ensures decoded.Failure? <==> r.Failure?
    ensures decoded.Failure? ==> r.error == decoded.error
    ensures r.Success? ==> fresh(r.value) && r.value.State() == BodyState(decoded.value, statusCode)
  {
    if decoded.Failure? {
      return Failure(decoded.error);
    }
    var h := decoded.value;
    var e := new StructuredError(h.code, h.message, h.reason, HttpToGrpcCode(statusCode), statusCode, h.metadata);
    r := Success(e);
  }

  /**
   * The round trip through JSON keeps code, message, reason, the HTTP code
   * and nonempty metadata; empty metadata comes back nil and the gRPC code
   * is derived from the HTTP code.
   */
  lemma HttpRoundTrip(e: StructuredError)
    ensures BodyState(JsonTransit(ToHTTPJSON(e).0), ToHTTPJSON(e).1) == SubState(
      e.Code, e.Message, e.Reason, HTTPToGRPC(e.HTTPCode), e.HTTPCode,
      if e.Metadata.Some? && |e.Metadata.value| > 0 then e.Metadata else None)
  {
    JsonTransitKeeps(Body(e));
    HttpToGrpcCodeMatchesConverter(e.HTTPCode);
  }

  /**
   * `WriteHTTPError`: the error it builds, which keeps the zero gRPC code OK
   * instead of deriving one from the HTTP code, and the response it writes.
   */
  method WriteHTTPError(code: string, message: string, httpCode: int) returns (built: StructuredError, resp: Response)
    ensures built.State() == SubState(code, message, "", OK, httpCode, None)
    ensures resp == Response(JsonContentType, httpCode, HTTPError(code, message, "", None))
  {
    built := new StructuredError(code, message, "", OK, httpCode, None);
    resp := ToHTTP(built);
  }
}
